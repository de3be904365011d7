/**
 * The cluster panel: per-cluster statistics for the bar chart, their
 * transposition into the radar chart's rows, and the checkbox selection
 * of which clusters the radar draws.
 */
module ClusterChart {
  import opened Songs
  import opened Sequences
  import opened Grouping

  /** One dictionary entry of `clusters` while the songs are scanned. */
  datatype Accumulator = Accumulator(count: nat, danceability: real, energy: real, valence: real)

  /**
   * One bar of the chart: a cluster, its number of songs and its mean
   * features as percentages. The label `Cluster <id>` is a formatting of
   * `clusterId` and is not carried.
   */
  datatype ClusterStat = ClusterStat(clusterId: int, songs: nat, danceability: real, energy: real, valence: real)

  /** The three radar axes, in drawing order. */
  datatype Feature = Danceability | Energy | Valence

  const RadarFeatures: seq<Feature> := [Danceability, Energy, Valence]

  /** One radar row: the feature and the value `Cluster <id>` holds, keyed by id. */
  datatype RadarRow = RadarRow(feature: Feature, values: map<int, real>)

  /** The entry the dictionary holds for cluster `c` after scanning `data`. */
  function AccumulatorOf(data: seq<Song>, c: int): Accumulator
  {
    Accumulator(
      Count(data, ClusterOf, c),
      Sum(data, ClusterOf, c, DanceabilityOf),
      Sum(data, ClusterOf, c, EnergyOf),
      Sum(data, ClusterOf, c, ValenceOf))
  }

  /** `sum / count * 100`, the mean of a feature as a percentage. */
  function Percent(sum: real, count: nat): (p: real)
    requires count > 0
    ensures 0.0 <= sum <= count as real ==> 0.0 <= p <= 100.0
  {
    sum / count as real * 100.0
  }

  /** The bar a dictionary entry turns into. */
  function StatOf(c: int, acc: Accumulator): ClusterStat
    requires acc.count > 0
  {
    ClusterStat(c, acc.count,
      Percent(acc.danceability, acc.count),
      Percent(acc.energy, acc.count),
      Percent(acc.valence, acc.count))
  }

  function ClusterIds(stats: seq<ClusterStat>): (ids: seq<int>)
    ensures |ids| == |stats|
    ensures forall i :: 0 <= i < |stats| ==> ids[i] == stats[i].clusterId
  {
    seq(|stats|, i requires 0 <= i < |stats| => stats[i].clusterId)
  }

  /** The song counts of the bars, added up. */
  function SongTotal(stats: seq<ClusterStat>): nat
    decreases |stats|
  {
    if stats == [] then 0 else stats[0].songs + SongTotal(stats[1..])
  }

  /** The bars for the listed cluster ids, in list order, from the dictionary's entries. */
  function BarsFrom(clusters: map<int, Accumulator>, ids: seq<int>): (stats: seq<ClusterStat>)
    requires forall j :: 0 <= j < |ids| ==> ids[j] in clusters && clusters[ids[j]].count > 0
    ensures ClusterIds(stats) == ids
    ensures forall i :: 0 <= i < |stats| ==> stats[i] == StatOf(ids[i], clusters[ids[i]])
    decreases |ids|
  {
    if ids == [] then []
    else [StatOf(ids[0], clusters[ids[0]])] + BarsFrom(clusters, ids[1..])
  }

  /** Bars built from the grouped songs add up to the group counts of their ids. */
  lemma {:induction false} SongTotalOfBars(data: seq<Song>, clusters: map<int, Accumulator>, ids: seq<int>)
    requires forall j :: 0 <= j < |ids| ==> ids[j] in clusters && clusters[ids[j]].count > 0
    requires forall c :: c in clusters ==> clusters[c] == AccumulatorOf(data, c)
    ensures SongTotal(BarsFrom(clusters, ids)) == CountsOver(data, ClusterOf, ids)
    decreases |ids|
  {
    if ids != [] {
      SongTotalOfBars(data, clusters, ids[1..]);
    }
  }

  /**
   * The forEach over the songs: `clusters[id]` is created with zero count
   * and sums the first time `id` is seen, then the count goes up by one and
   * each feature is added to its sum.
   */
  method GroupByCluster(data: seq<Song>) returns (clusters: map<int, Accumulator>)
    ensures clusters.Keys == KeySet(data, ClusterOf)
    ensures forall c :: c in clusters ==> clusters[c] == AccumulatorOf(data, c) && clusters[c].count >= 1
  {
    clusters := map[];
    for i := 0 to |data|
      invariant clusters.Keys == KeySet(data[..i], ClusterOf)
      invariant forall c :: c in clusters ==> clusters[c] == AccumulatorOf(data[..i], c)
    {
      var song := data[i];
      var clusterId := song.cluster;
      assert data[..i + 1][..i] == data[..i];
      assert data[..i + 1][i] == song;
      KeySetStep(data, ClusterOf, i);
      if clusterId !in clusters {
        AbsentKey(data[..i], ClusterOf, clusterId, DanceabilityOf);
        AbsentKey(data[..i], ClusterOf, clusterId, EnergyOf);
        AbsentKey(data[..i], ClusterOf, clusterId, ValenceOf);
        clusters := clusters[clusterId := Accumulator(0, 0.0, 0.0, 0.0)];
      }
      var acc := clusters[clusterId];
      clusters := clusters[clusterId := Accumulator(
        acc.count + 1,
        acc.danceability + song.features.danceability,
        acc.energy + song.features.energy,
        acc.valence + song.features.valence)];
    }
    assert data[..|data|] == data;
    forall c | c in clusters ensures clusters[c].count >= 1 {
      CountPositive(data, ClusterOf, c);
    }
  }

  /**
   * `clusterStats`: group the songs by cluster into a count and three
   * feature sums, turn each group into a bar of means times 100, and order
   * the bars by ascending cluster id. No data gives no bars.
   */
  method ComputeClusterStats(data: seq<Song>) returns (stats: seq<ClusterStat>)
    ensures data == [] <==> stats == []
    ensures StrictlyAscending(ClusterIds(stats))
    ensures forall c :: c in ClusterIds(stats) <==> c in KeySet(data, ClusterOf)
    ensures forall i :: 0 <= i < |stats| ==>
      var c := stats[i].clusterId;
      && stats[i].songs == Count(data, ClusterOf, c) >= 1
      && stats[i].danceability == Sum(data, ClusterOf, c, DanceabilityOf) / stats[i].songs as real * 100.0
      && stats[i].energy == Sum(data, ClusterOf, c, EnergyOf) / stats[i].songs as real * 100.0
      && stats[i].valence == Sum(data, ClusterOf, c, ValenceOf) / stats[i].songs as real * 100.0
    ensures SongTotal(stats) == |data|
  {
    if |data| == 0 {
      return [];
    }
    var clusters := GroupByCluster(data);
    var ids := KeyList(clusters);
    SortDistinct(ids);
    ids := SortAscending(ids);
    stats := BarsFrom(clusters, ids);
    assert data[0].cluster in KeySet(data, ClusterOf);
    SongTotalOfBars(data, clusters, ids);
    CountsCoverData(data, ClusterOf, ids);
  }

  /** With features in [0, 1], every percentage lies in [0, 100]. */
  lemma StatPercentBounds(data: seq<Song>, c: int)
    requires forall i :: 0 <= i < |data| ==> FeaturesInRange(data[i])
    requires c in KeySet(data, ClusterOf)
    ensures Count(data, ClusterOf, c) >= 1
    ensures var stat := StatOf(c, AccumulatorOf(data, c));
      && 0.0 <= stat.danceability <= 100.0
      && 0.0 <= stat.energy <= 100.0
      && 0.0 <= stat.valence <= 100.0
  {
    CountPositive(data, ClusterOf, c);
    SumBounds(data, ClusterOf, c, DanceabilityOf);
    SumBounds(data, ClusterOf, c, EnergyOf);
    SumBounds(data, ClusterOf, c, ValenceOf);
  }

  /** `cluster[feature.toLowerCase()]`: the bar's value for one radar axis. */
  function FeatureValue(stat: ClusterStat, feature: Feature): real
  {
    match feature
    case Danceability => stat.danceability
    case Energy => stat.energy
    case Valence => stat.valence
  }

  /** No later bar carries the same cluster id as bar i. */
  predicate LastWithId(stats: seq<ClusterStat>, i: int)
    requires 0 <= i < |stats|
  {
    forall j :: i < j < |stats| ==> stats[j].clusterId != stats[i].clusterId
  }

  /**
   * One radar row: the forEach sets key `Cluster <id>` of a fresh object to
   * the bar's value for the feature. A repeated id keeps the last write.
   */
  method RadarPoint(stats: seq<ClusterStat>, feature: Feature) returns (values: map<int, real>)
    ensures forall c :: c in values <==> c in ClusterIds(stats)
    ensures forall i :: 0 <= i < |stats| && LastWithId(stats, i) ==>
      values[stats[i].clusterId] == FeatureValue(stats[i], feature)
  {
    values := map[];
    for i := 0 to |stats|
      invariant forall c :: c in values <==> c in ClusterIds(stats[..i])
      invariant forall j :: 0 <= j < i && (forall m :: j < m < i ==> stats[m].clusterId != stats[j].clusterId) ==>
        values[stats[j].clusterId] == FeatureValue(stats[j], feature)
    {
      assert ClusterIds(stats[..i + 1]) == ClusterIds(stats[..i]) + [stats[i].clusterId];
      values := values[stats[i].clusterId := FeatureValue(stats[i], feature)];
    }
    assert stats[..|stats|] == stats;
  }

  /**
   * `radarData`: nothing without bars; otherwise one row per feature, in the
   * order Danceability, Energy, Valence.
   */
  method ComputeRadarData(stats: seq<ClusterStat>) returns (rows: seq<RadarRow>)
    ensures stats == [] ==> rows == []
    ensures stats != [] ==> |rows| == |RadarFeatures|
    ensures forall r :: 0 <= r < |rows| ==> rows[r].feature == RadarFeatures[r]
    ensures forall r :: 0 <= r < |rows| ==> forall c :: c in rows[r].values <==> c in ClusterIds(stats)
    ensures forall r, i :: 0 <= r < |rows| && 0 <= i < |stats| && LastWithId(stats, i) ==>
      stats[i].clusterId in rows[r].values &&
      rows[r].values[stats[i].clusterId] == FeatureValue(stats[i], rows[r].feature)
  {
    if |stats| == 0 {
      return [];
    }
    var dance := RadarPoint(stats, Danceability);
    var energy := RadarPoint(stats, Energy);
    var valence := RadarPoint(stats, Valence);
    rows := [RadarRow(Danceability, dance), RadarRow(Energy, energy), RadarRow(Valence, valence)];
  }

  /** In strictly ascending bars every bar is the last with its id, so each radar key holds its bar's value. */
  lemma AscendingStatsAreLast(stats: seq<ClusterStat>, i: int)
    requires StrictlyAscending(ClusterIds(stats))
    requires 0 <= i < |stats|
    ensures LastWithId(stats, i)
  {
    forall j | i < j < |stats| ensures stats[j].clusterId != stats[i].clusterId {
      assert ClusterIds(stats)[i] < ClusterIds(stats)[j];
    }
  }

  // The checkbox selection of clusters shown on the radar.

  /** Every cluster starts selected. */
  const InitialSelection: seq<int> := [0, 1, 2, 3, 4, 5, 6, 7]

  /** Checking a box: `[...selectedClusters, id].sort((a, b) => a - b)`. */
  function Check(selection: seq<int>, id: int): (r: seq<int>)
    ensures Ascending(r)
    ensures multiset(r) == multiset(selection) + multiset{id}
  {
    SortAscending(selection + [id])
  }

  /** Unchecking a box: `selectedClusters.filter(x => x !== id)`. */
  function Uncheck(selection: seq<int>, id: int): (r: seq<int>)
    decreases |selection|
  {
    if selection == [] then []
    else (if selection[0] != id then [selection[0]] else []) + Uncheck(selection[1..], id)
  }

  /** Unchecking removes every occurrence of the id and keeps the rest in order. */
  lemma {:induction false} UncheckRemoves(selection: seq<int>, id: int)
    ensures IsSubsequence(Uncheck(selection, id), selection)
    ensures forall x :: x in Uncheck(selection, id) <==> x in selection && x != id
    decreases |selection|
  {
    if selection != [] {
      var rest := Uncheck(selection[1..], id);
      UncheckRemoves(selection[1..], id);
      assert selection == [selection[0]] + selection[1..];
      if selection[0] != id {
        assert Uncheck(selection, id) == [selection[0]] + rest;
        assert ([selection[0]] + rest)[1..] == rest;
      } else {
        assert Uncheck(selection, id) == rest;
        SkipHead(rest, selection);
      }
    }
  }

  /** Unchecking drops every copy of the id and keeps every other id as often as it occurs. */
  lemma {:induction false} UncheckCounts(selection: seq<int>, id: int, x: int)
    ensures multiset(Uncheck(selection, id))[x] == if x == id then 0 else multiset(selection)[x]
    decreases |selection|
  {
    if selection != [] {
      assert selection == [selection[0]] + selection[1..];
      UncheckCounts(selection[1..], id, x);
    }
  }

  /**
   * The `onChange` handler: `checked` is the box's new state, which the
   * browser sets to the negation of `selectedClusters.includes(id)`.
   */
  function Toggle(selection: seq<int>, id: int, checked: bool): seq<int>
  {
    if checked then Check(selection, id) else Uncheck(selection, id)
  }

  /**
   * Toggling a box keeps the selection strictly ascending and flips the
   * id's membership, leaving every other id as it was.
   */
  lemma ToggleKeepsSelectionOrdered(selection: seq<int>, id: int, checked: bool)
    requires StrictlyAscending(selection)
    requires checked == (id !in selection)
    ensures StrictlyAscending(Toggle(selection, id, checked))
    ensures id in Toggle(selection, id, checked) <==> checked
    ensures forall x :: x != id ==> (x in Toggle(selection, id, checked) <==> x in selection)
  {
    if checked {
      var r := Check(selection, id);
      assert Distinct(selection + [id]);
      SortDistinct(selection + [id]);
    } else {
      UncheckRemoves(selection, id);
      SubsequenceAscending(Uncheck(selection, id), selection);
      UncheckDistinct(selection, id);
    }
  }

  /** Unchecking never repeats an id that was not repeated. */
  lemma {:induction false} UncheckDistinct(selection: seq<int>, id: int)
    requires Distinct(selection)
    ensures Distinct(Uncheck(selection, id))
    decreases |selection|
  {
    if selection != [] {
      var rest := Uncheck(selection[1..], id);
      assert Distinct(selection[1..]);
      UncheckDistinct(selection[1..], id);
      UncheckRemoves(selection[1..], id);
      if selection[0] != id {
        assert selection[0] !in selection[1..];
        assert Uncheck(selection, id) == [selection[0]] + rest;
      } else {
        assert Uncheck(selection, id) == rest;
      }
    }
  }

  /** The initial selection is ordered and holds exactly the clusters 0..7. */
  lemma InitialSelectionOrdered()
    ensures StrictlyAscending(InitialSelection)
    ensures |InitialSelection| == 8
    ensures forall i :: 0 <= i < |InitialSelection| ==> InitialSelection[i] == i
  {
  }
}
