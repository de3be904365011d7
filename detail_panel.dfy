/**
 * The analytics dashboard's statistics: songs per cluster over the fixed
 * clusters 0..7, the mean of each audio feature, and songs per decade,
 * with the decades listed in ascending order.
 */
module DetailPanel {
  import opened Songs
  import opened Sequences
  import opened Grouping

  /** Clusters 0..7 get a count entry before any song is scanned. */
  const ClusterSlots: nat := 8

  /**
   * A value of `clusterCounts`. `clusterCounts[c]++` on a key that is not
   * there reads `undefined`, and `undefined + 1` is NaN; NaN stays NaN.
   */
  datatype Tally = Tally(n: nat) | NaN

  /** The three feature means of `avgFeatures`. */
  datatype FeatureMeans = FeatureMeans(danceability: real, energy: real, valence: real)

  datatype DashboardStats = DashboardStats(
    clusterCounts: map<int, Tally>,
    avgFeatures: FeatureMeans,
    decadeCounts: map<int, nat>)

  datatype Option<T> = None | Some(value: T)

  /** `Math.floor(year / 10) * 10`. */
  function Decade(year: int): (d: int)
    ensures d % 10 == 0
    ensures d <= year < d + 10
  {
    (year / 10) * 10
  }

  function DecadeOf(s: Song): int { Decade(s.year) }

  /** Cluster ids 0..7: the keys `clusterCounts` starts with. */
  predicate Preset(c: int)
  {
    0 <= c < ClusterSlots
  }

  /** The preset keys in the order the initialising loop writes them. */
  const PresetIds: seq<int> := seq(ClusterSlots, i => i)

  /** The value `clusterCounts[c]` holds after scanning `data`. */
  function TallyOf(data: seq<Song>, c: int): Tally
  {
    if Preset(c) then Tally(Count(data, ClusterOf, c)) else NaN
  }

  /** `x++` on a dictionary value that is present: NaN stays NaN. */
  function Increment(value: Tally): (r: Tally)
    ensures value.Tally? ==> r == Tally(value.n + 1)
    ensures value.NaN? ==> r.NaN?
  {
    match value
    case Tally(n) => Tally(n + 1)
    case NaN => NaN
  }

  /** `for (let i = 0; i < 8; i++) clusterCounts[i] = 0`. */
  method PresetClusterCounts() returns (clusterCounts: map<int, Tally>)
    ensures forall c :: c in clusterCounts <==> Preset(c)
    ensures forall c :: c in clusterCounts ==> clusterCounts[c] == Tally(0)
  {
    clusterCounts := map[];
    for i := 0 to ClusterSlots
      invariant forall c :: c in clusterCounts <==> 0 <= c < i
      invariant forall c :: c in clusterCounts ==> clusterCounts[c] == Tally(0)
    {
      clusterCounts := clusterCounts[i := Tally(0)];
    }
  }

  /** One forEach step on the cluster counts: `clusterCounts[song.cluster]++`. */
  method CountCluster(data: seq<Song>, i: int, clusterCounts: map<int, Tally>) returns (next: map<int, Tally>)
    requires 0 <= i < |data|
    requires forall c :: c in clusterCounts <==> Preset(c) || c in KeySet(data[..i], ClusterOf)
    requires forall c :: c in clusterCounts ==> clusterCounts[c] == TallyOf(data[..i], c)
    ensures forall c :: c in next <==> Preset(c) || c in KeySet(data[..i + 1], ClusterOf)
    ensures forall c :: c in next ==> next[c] == TallyOf(data[..i + 1], c)
  {
    var song := data[i];
    assert data[..i + 1][..i] == data[..i];
    assert data[..i + 1][i] == song;
    KeySetStep(data, ClusterOf, i);
    if song.cluster in clusterCounts {
      next := clusterCounts[song.cluster := Increment(clusterCounts[song.cluster])];
    } else {
      next := clusterCounts[song.cluster := NaN];
    }
  }

  /** One forEach step on the decade counts: `(decadeCounts[decade] || 0) + 1`. */
  method CountDecade(data: seq<Song>, i: int, decadeCounts: map<int, nat>) returns (next: map<int, nat>)
    requires 0 <= i < |data|
    requires decadeCounts.Keys == KeySet(data[..i], DecadeOf)
    requires forall d :: d in decadeCounts ==> decadeCounts[d] == Count(data[..i], DecadeOf, d)
    ensures next.Keys == KeySet(data[..i + 1], DecadeOf)
    ensures forall d :: d in next ==> next[d] == Count(data[..i + 1], DecadeOf, d)
  {
    var song := data[i];
    assert data[..i + 1][..i] == data[..i];
    assert data[..i + 1][i] == song;
    KeySetStep(data, DecadeOf, i);
    var decade := Decade(song.year);
    var previous := if decade in decadeCounts then decadeCounts[decade] else 0;
    if decade !in decadeCounts {
      AbsentKey(data[..i], DecadeOf, decade, DurationOf);
    }
    next := decadeCounts[decade := previous + 1];
  }

  /**
   * The preset cluster counts, then the forEach: `clusterCounts[cluster]++`
   * (NaN for a cluster outside 0..7, whose key was missing), the three
   * running feature totals, and
   * `decadeCounts[decade] = (decadeCounts[decade] || 0) + 1`.
   */
  method Accumulate(data: seq<Song>)
      returns (clusterCounts: map<int, Tally>, totalDance: real, totalEnergy: real, totalValence: real,
               decadeCounts: map<int, nat>)
    ensures forall c :: c in clusterCounts <==> Preset(c) || c in KeySet(data, ClusterOf)
    ensures forall c :: c in clusterCounts ==> clusterCounts[c] == TallyOf(data, c)
    ensures totalDance == Total(data, DanceabilityOf)
    ensures totalEnergy == Total(data, EnergyOf)
    ensures totalValence == Total(data, ValenceOf)
    ensures decadeCounts.Keys == KeySet(data, DecadeOf)
    ensures forall d :: d in decadeCounts ==> decadeCounts[d] == Count(data, DecadeOf, d) >= 1
  {
    clusterCounts := PresetClusterCounts();
    totalDance, totalEnergy, totalValence := 0.0, 0.0, 0.0;
    decadeCounts := map[];
    for i := 0 to |data|
      invariant forall c :: c in clusterCounts <==> Preset(c) || c in KeySet(data[..i], ClusterOf)
      invariant forall c :: c in clusterCounts ==> clusterCounts[c] == TallyOf(data[..i], c)
      invariant totalDance == Total(data[..i], DanceabilityOf)
      invariant totalEnergy == Total(data[..i], EnergyOf)
      invariant totalValence == Total(data[..i], ValenceOf)
      invariant decadeCounts.Keys == KeySet(data[..i], DecadeOf)
      invariant forall d :: d in decadeCounts ==> decadeCounts[d] == Count(data[..i], DecadeOf, d)
    {
      var song := data[i];
      assert data[..i + 1][..i] == data[..i];
      assert data[..i + 1][i] == song;
      clusterCounts := CountCluster(data, i, clusterCounts);
      totalDance := totalDance + song.features.danceability;
      totalEnergy := totalEnergy + song.features.energy;
      totalValence := totalValence + song.features.valence;
      decadeCounts := CountDecade(data, i, decadeCounts);
    }
    assert data[..|data|] == data;
    forall d | d in decadeCounts ensures decadeCounts[d] >= 1 {
      CountPositive(data, DecadeOf, d);
    }
  }

  /**
   * `stats`: nothing for no songs; otherwise the cluster counts, each
   * feature's total divided by the number of songs, and the decade counts.
   */
  method ComputeStats(data: seq<Song>) returns (stats: Option<DashboardStats>)
    ensures data == [] <==> stats == None
    ensures stats.Some? ==>
      var s := stats.value;
      && (forall c :: c in s.clusterCounts <==> Preset(c) || c in KeySet(data, ClusterOf))
      && (forall c :: c in s.clusterCounts ==> s.clusterCounts[c] == TallyOf(data, c))
      && s.avgFeatures == FeatureMeans(
           Total(data, DanceabilityOf) / |data| as real,
           Total(data, EnergyOf) / |data| as real,
           Total(data, ValenceOf) / |data| as real)
      && s.decadeCounts.Keys == KeySet(data, DecadeOf)
      && (forall d :: d in s.decadeCounts ==> s.decadeCounts[d] == Count(data, DecadeOf, d) >= 1)
  {
    if |data| == 0 {
      return None;
    }
    var clusterCounts, totalDance, totalEnergy, totalValence, decadeCounts := Accumulate(data);
    var n := |data| as real;
    stats := Some(DashboardStats(
      clusterCounts,
      FeatureMeans(totalDance / n, totalEnergy / n, totalValence / n),
      decadeCounts));
  }

  /**
   * With every cluster in 0..7 no key is added to the preset ones, and the
   * counts of clusters 0..7 add up to the number of songs.
   */
  lemma PresetClustersCoverData(data: seq<Song>)
    requires forall i :: 0 <= i < |data| ==> Preset(data[i].cluster)
    ensures forall c :: c in KeySet(data, ClusterOf) ==> Preset(c)
    ensures CountsOver(data, ClusterOf, PresetIds) == |data|
  {
    forall c | c in KeySet(data, ClusterOf) ensures Preset(c) {
      var i :| 0 <= i < |data| && data[i].cluster == c;
    }
    PresetIdsListPresets();
    CountsCoverData(data, ClusterOf, PresetIds);
  }

  /** `PresetIds` lists each of the clusters 0..7 once. */
  lemma PresetIdsListPresets()
    ensures Distinct(PresetIds)
    ensures forall c :: Preset(c) ==> c in PresetIds
  {
    forall c | Preset(c) ensures c in PresetIds {
      assert PresetIds[c] == c;
    }
  }

  /** The decade counts add up to the number of songs. */
  lemma DecadesCoverData(data: seq<Song>, decades: seq<int>)
    requires Distinct(decades)
    requires forall d :: d in decades <==> d in KeySet(data, DecadeOf)
    ensures CountsOver(data, DecadeOf, decades) == |data|
  {
    CountsCoverData(data, DecadeOf, decades);
  }

  /** With every feature in [0, 1], every mean lies in [0, 1]. */
  lemma MeansInUnitInterval(data: seq<Song>)
    requires data != []
    requires forall i :: 0 <= i < |data| ==> FeaturesInRange(data[i])
    ensures InUnitInterval(Total(data, DanceabilityOf) / |data| as real)
    ensures InUnitInterval(Total(data, EnergyOf) / |data| as real)
    ensures InUnitInterval(Total(data, ValenceOf) / |data| as real)
  {
    var n := |data| as real;
    TotalBounds(data, DanceabilityOf);
    MeanOfUnitValues(Total(data, DanceabilityOf), n);
    TotalBounds(data, EnergyOf);
    MeanOfUnitValues(Total(data, EnergyOf), n);
    TotalBounds(data, ValenceOf);
    MeanOfUnitValues(Total(data, ValenceOf), n);
  }

  lemma MeanOfUnitValues(total: real, n: real)
    requires n > 0.0 && 0.0 <= total <= n
    ensures InUnitInterval(total / n)
  {
  }

  /** The rows for the listed decades, in list order. */
  function RowsFrom(decadeCounts: map<int, nat>, decades: seq<int>): (rows: seq<(int, nat)>)
    requires forall j :: 0 <= j < |decades| ==> decades[j] in decadeCounts
    ensures |rows| == |decades|
    ensures forall i :: 0 <= i < |rows| ==> rows[i] == (decades[i], decadeCounts[decades[i]])
    decreases |decades|
  {
    if decades == [] then []
    else [(decades[0], decadeCounts[decades[0]])] + RowsFrom(decadeCounts, decades[1..])
  }

  function DecadeColumn(rows: seq<(int, nat)>): (decades: seq<int>)
    ensures |decades| == |rows|
    ensures forall i :: 0 <= i < |rows| ==> decades[i] == rows[i].0
  {
    seq(|rows|, i requires 0 <= i < |rows| => rows[i].0)
  }

  /**
   * The timeline's order: `Object.entries(decadeCounts)` sorted by
   * ascending decade, each decade with its count, every decade once.
   */
  method DecadesInOrder(decadeCounts: map<int, nat>) returns (rows: seq<(int, nat)>)
    ensures |rows| == |decadeCounts|
    ensures StrictlyAscending(DecadeColumn(rows))
    ensures forall d :: d in decadeCounts <==> d in DecadeColumn(rows)
    ensures forall i :: 0 <= i < |rows| ==> rows[i].0 in decadeCounts && rows[i].1 == decadeCounts[rows[i].0]
  {
    var decades := SortedDecades(decadeCounts);
    assert forall j :: 0 <= j < |decades| ==> decades[j] in decades;
    rows := RowsFrom(decadeCounts, decades);
    assert DecadeColumn(rows) == decades;
  }

  /** The decade keys, each once, in ascending order. */
  method SortedDecades(decadeCounts: map<int, nat>) returns (decades: seq<int>)
    ensures |decades| == |decadeCounts|
    ensures StrictlyAscending(decades)
    ensures forall d :: d in decades <==> d in decadeCounts
  {
    var keys := KeyList(decadeCounts);
    SortDistinct(keys);
    decades := SortAscending(keys);
    DistinctCardinality(keys, decadeCounts.Keys);
  }

  /** A list without repetitions of exactly the elements of a set is as long as the set is large. */
  lemma {:induction false} DistinctCardinality(s: seq<int>, keys: set<int>)
    requires Distinct(s)
    requires forall x :: x in s <==> x in keys
    ensures |s| == |keys|
    decreases |s|
  {
    if s != [] {
      assert forall x :: x in s[1..] <==> x in keys - {s[0]};
      DistinctCardinality(s[1..], keys - {s[0]});
    } else {
      EmptyByExtension(keys);
    }
  }
}
