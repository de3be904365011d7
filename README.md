# spotify-galaxy: a verified model of the data transformations

spotify-galaxy is a React / three.js page. It loads a list of songs, each with:

- a release year;
- a cluster id;
- a duration in milliseconds;
- three audio features (danceability, energy, valence) in [0, 1];
- a 3-D position.

It draws the songs as a rotating point cloud and shows several charts. This project models the computations that turn the song list into what gets drawn, and proves what they promise:

- **YearFilter** (`year_filter.dfy`): the year-range filter applied to the catalogue. The range is inclusive and starts at [1920, 2020].
- **PointCloud** (`point_cloud.dfy`): the point cloud (`Galaxy`). Three flat buffers are filled in place:
  - positions, scaled by 5;
  - colours, taken from an 8-entry palette by `cluster % 8`;
  - sizes, `0.3 + 0.7·energy`.

  The mesh turns by 0.0005 rad per frame.
- **ClusterChart** (`cluster_chart.dfy`): the cluster chart. Songs are grouped by cluster into counts and feature sums. Each feature becomes a mean ×100, and the clusters are sorted by id. The result is transposed into three radar rows. The chart also keeps the sorted checkbox selection.
- **DurationChart** (`duration_chart.dfy`): the duration chart. Songs are grouped by year into total and count. Each year's average is converted to minutes, and the series is sorted by year. The x-axis ticks are the multiples of 20 between the first and last year.
- **DetailPanel** (`detail_panel.dfy`): the analytics dashboard, with these parts:
  - songs per cluster over the preset clusters 0..7;
  - the mean of each feature;
  - songs per decade, listed in ascending decade order.
- **Songs**, **Grouping** and **Sequences**: shared pieces.
  - `Songs` is the song record.
  - `Grouping` holds the reference definitions every dictionary loop is proved against. `Count`, `Sum` and `Total` are defined over a key function. `CountsCoverData` shows that counts over the keys present add up to the number of songs.
  - `Sequences` holds the ordering predicates, a subsequence relation and an insertion sort that plays the part of `Array.prototype.sort` with a numeric comparator.

The shape of each model follows the code:

- The pure `filter` and the selection toggle are functions.
- The `forEach` loops that update dictionaries are methods with `while`/`for` loops. They update `map`s and are proved against the reference functions.
- The typed arrays are `array<real>`, written slot by slot.
- The rotated mesh is a class whose field changes each frame.

JavaScript details kept explicit:

- `%` truncates toward zero, so the remainder keeps the sign of the dividend (`PointCloud.JsRem`). A negative cluster that is not a multiple of 8 gives a negative palette index. That index reads `undefined`, and `THREE.Color(undefined)` keeps its default white. A negative multiple of 8 gives `-0`, which reads palette entry 0.
- `clusterCounts[c]++` on a key that is not there gives NaN (`DetailPanel.Tally.NaN`).
- `Math.floor(year / 10) * 10` and `Math.ceil(minYear / 20) * 20` are written for every sign of the year.

The code does not clamp the point size, so energy outside [0, 1] gives a size outside [0.3, 1.0] (`PointCloud.Scale`). The palette wraps every non-negative cluster and every negative multiple of 8. Any other negative cluster gets the default white (`PointCloud.ColorOf`).

## Model

| member | source | states |
|---|---|---|
| YearFilter.FilterMembership | spotify-galaxy/src/App.jsx:24-26 | a song is in the filtered list exactly when it is in the data and its year lies in the inclusive range |
| YearFilter.FilterCounts | spotify-galaxy/src/App.jsx:24-26 | each in-range song is kept exactly as often as it occurs in the data, and no other song is kept |
| YearFilter.FilterIsSubsequence | spotify-galaxy/src/App.jsx:24-26 | the filtered list is a subsequence of the data (relative order kept) and no longer than it |
| YearFilter.FilterInvertedRangeEmpty | spotify-galaxy/src/App.jsx:25 | a range whose lower end exceeds its upper end selects nothing; nothing forces min ≤ max |
| YearFilter.FilterIdempotent | spotify-galaxy/src/App.jsx:24-26 | filtering an already filtered list with the same range changes nothing |
| YearFilter.FilterKeepsInRange | spotify-galaxy/src/App.jsx:24-26 | a list whose songs are all in range is returned unchanged |
| YearFilter.InitialRangeKeepsCatalog | spotify-galaxy/src/App.jsx:13 | the initial range is [1920, 2020]; a catalogue within it is shown whole |
| PointCloud.JsRem | spotify-galaxy/src/components/Galaxy.jsx:32 | JavaScript `%`: lies strictly between -n and n. For a non-negative dividend it equals the Euclidean remainder. For a negative dividend it is 0 when n divides it, and otherwise the Euclidean remainder minus n (the sign of the dividend, the same residue) |
| PointCloud.ColorOf | spotify-galaxy/src/components/Galaxy.jsx:32-35 | a non-negative cluster takes palette entry `cluster mod 8`; a negative cluster not divisible by 8 indexes outside the palette and gets the default white; a negative multiple of 8 takes entry 0 |
| PointCloud.SameColorForSameRemainder | spotify-galaxy/src/components/Galaxy.jsx:32 | non-negative clusters equal mod 8 get the same colour |
| PointCloud.Scale | spotify-galaxy/src/components/Galaxy.jsx:38 | energy in [0, 1] gives a size in [0.3, 1.0], with 0 ↦ 0.3 and 1 ↦ 1.0; energy outside [0, 1] gives a size outside [0.3, 1.0] (no clamp) |
| PointCloud.PositionBuffer | spotify-galaxy/src/components/Galaxy.jsx:21-29 | the position buffer has 3N entries for N songs |
| PointCloud.ColorBuffer | spotify-galaxy/src/components/Galaxy.jsx:22-35 | the colour buffer has 3N entries for N songs |
| PointCloud.ScaleBuffer | spotify-galaxy/src/components/Galaxy.jsx:23-38 | the size buffer has N entries for N songs |
| PointCloud.PositionSlot | spotify-galaxy/src/components/Galaxy.jsx:27-29 | slot 3i+k of the position buffer is 5 × coordinate k of song i |
| PointCloud.ColorSlot | spotify-galaxy/src/components/Galaxy.jsx:32-35 | slot 3i+k of the colour buffer is channel k of song i's cluster colour |
| PointCloud.ScaleSlot | spotify-galaxy/src/components/Galaxy.jsx:38 | slot i of the size buffer is `0.3 + 0.7·energy` of song i |
| PointCloud.SlotsDependOnSongAlone | spotify-galaxy/src/components/Galaxy.jsx:25-39 | slots 3i..3i+2 and i depend on song i alone: two lists agreeing at position i agree in those slots |
| PointCloud.ScalesBounded | spotify-galaxy/src/components/Galaxy.jsx:38 | a song with energy in [0, 1] gets a size slot in [0.3, 1.0] |
| PointCloud.WriteTriple | spotify-galaxy/src/components/Galaxy.jsx:27-29 | writing one song's three slots extends the written prefix by exactly that triple and leaves every later slot as it was |
| PointCloud.BuildPointCloud | spotify-galaxy/src/components/Galaxy.jsx:20-42 | the three freshly allocated arrays end up holding exactly the position, colour and size buffers of the songs (empty for no songs) |
| PointCloud.OnFrame | spotify-galaxy/src/components/Galaxy.jsx:45-49 | when the mesh exists each frame adds exactly 0.0005 to its angle, which therefore increases; with no mesh nothing happens |
| PointCloud.AngleAfter | spotify-galaxy/src/components/Galaxy.jsx:45-49 | after n frames the angle is start + n·0.0005, never below the start |
| PointCloud.AngleMonotone | spotify-galaxy/src/components/Galaxy.jsx:45-49 | the angle never decreases as frames go by |
| PointCloud.AngleAfterAdds | spotify-galaxy/src/components/Galaxy.jsx:45-49 | m frames followed by n frames turn the mesh as far as m+n frames |
| ClusterChart.GroupByCluster | spotify-galaxy/src/components/ClusterChart.jsx:33-52 | the dictionary has one entry per cluster present, holding that cluster's song count (≥ 1) and its three feature sums |
| ClusterChart.Percent | spotify-galaxy/src/components/ClusterChart.jsx:60-62 | a sum between 0 and the count gives a value `sum / count · 100` in [0, 100] |
| ClusterChart.BarsFrom | spotify-galaxy/src/components/ClusterChart.jsx:55-63 | one stat per listed cluster id, in the listed order, with that cluster's count and means ×100 |
| ClusterChart.SongTotalOfBars | spotify-galaxy/src/components/ClusterChart.jsx:59 | the stats' song counts add up to the number of songs in the listed clusters |
| Sequences.SortAscending | spotify-galaxy/src/components/ClusterChart.jsx:64 | the numeric sort yields an ascending permutation of its input |
| Grouping.KeyList | spotify-galaxy/src/components/DurationChart.jsx:20 | the keys of a dictionary are listed once each, all of them and nothing else |
| ClusterChart.ComputeClusterStats | spotify-galaxy/src/components/ClusterChart.jsx:30-65 | empty data gives an empty list; otherwise there is exactly one stat per distinct cluster, in strictly ascending id order; each stat's count is the number of songs in that cluster; each feature is the cluster's sum / count × 100; the counts add up to the number of songs |
| ClusterChart.StatPercentBounds | spotify-galaxy/src/components/ClusterChart.jsx:49-62 | with every feature in [0, 1], each present cluster's three values lie in [0, 100] |
| ClusterChart.RadarPoint | spotify-galaxy/src/components/ClusterChart.jsx:71-75 | one row has one key per cluster in the stats, holding that cluster's value for the row's feature (the last stat with that id wins) |
| ClusterChart.ComputeRadarData | spotify-galaxy/src/components/ClusterChart.jsx:67-77 | no stats give no rows; otherwise there are exactly three rows, Danceability, Energy, Valence, each keyed by every cluster id with its value for that feature |
| ClusterChart.AscendingStatsAreLast | spotify-galaxy/src/components/ClusterChart.jsx:71-74 | in the strictly ascending stats list every stat is the only one with its id, so every cluster's own value reaches the radar row |
| ClusterChart.InitialSelectionOrdered | spotify-galaxy/src/components/ClusterChart.jsx:28 | the selection starts as 0..7, strictly ascending |
| ClusterChart.Check | spotify-galaxy/src/components/ClusterChart.jsx:145 | checking yields an ascending list holding the old selection plus the id |
| ClusterChart.UncheckRemoves | spotify-galaxy/src/components/ClusterChart.jsx:147 | unchecking keeps the rest in order (a subsequence) and removes every occurrence of the id and nothing else |
| ClusterChart.UncheckCounts | spotify-galaxy/src/components/ClusterChart.jsx:147 | unchecking leaves no copy of the id and keeps every other id exactly as often as it occurred |
| ClusterChart.UncheckDistinct | spotify-galaxy/src/components/ClusterChart.jsx:147 | unchecking a selection without repetitions leaves one without repetitions |
| ClusterChart.ToggleKeepsSelectionOrdered | spotify-galaxy/src/components/ClusterChart.jsx:143-148 | toggling a strictly ascending selection keeps it strictly ascending; the id ends up present exactly when it was checked; every other id keeps its membership |
| DurationChart.GroupByYear | spotify-galaxy/src/components/DurationChart.jsx:10-17 | the dictionary has one entry per year present, holding that year's song count (≥ 1) and total duration |
| DurationChart.PointsFrom | spotify-galaxy/src/components/DurationChart.jsx:20-24 | one point per listed year, in the listed order, with that year's average in minutes |
| DurationChart.ComputeDurationSeries | spotify-galaxy/src/components/DurationChart.jsx:6-26 | empty data gives an empty series; otherwise there is exactly one point per distinct year, in strictly ascending order; each average is (total of that year's durations / count) / 60000 with count ≥ 1; the counts over the years add up to the number of songs |
| DurationChart.TwoSongsAverage | spotify-galaxy/src/components/DurationChart.jsx:23 | two songs of one year lasting 180000 and 220000 ms average 200000/60000 minutes |
| DurationChart.MinOf | spotify-galaxy/src/components/DurationChart.jsx:38 | the minimum is an element of the list and at most every element |
| DurationChart.MaxOf | spotify-galaxy/src/components/DurationChart.jsx:39 | the maximum is an element of the list and at least every element |
| DurationChart.ExtremesOfOrderedSeries | spotify-galaxy/src/components/DurationChart.jsx:38-39 | on the ascending series the minimum year is the first point's and the maximum the last point's |
| DurationChart.CeilDiv | spotify-galaxy/src/components/DurationChart.jsx:55 | `Math.ceil(a / d)` is the least q with a ≤ q·d |
| DurationChart.FirstTick | spotify-galaxy/src/components/DurationChart.jsx:55 | the first tick is the smallest multiple of 20 not below the minimum year |
| DurationChart.XTicks | spotify-galaxy/src/components/DurationChart.jsx:53-57 | the ticks are the first tick, then steps of 20, each a multiple of 20 and ≤ the maximum year; there are none exactly when the first tick exceeds the maximum year; the next step would pass the maximum year |
| DetailPanel.Decade | spotify-galaxy/src/components/DetailPanel.jsx:29 | a decade key is a multiple of 10 with decade ≤ year < decade + 10 |
| DetailPanel.Increment | spotify-galaxy/src/components/DetailPanel.jsx:24 | `++` adds one to a count and leaves NaN as NaN |
| DetailPanel.PresetClusterCounts | spotify-galaxy/src/components/DetailPanel.jsx:14-15 | the cluster counts start with keys exactly 0..7, each 0 |
| DetailPanel.CountCluster | spotify-galaxy/src/components/DetailPanel.jsx:24 | one `clusterCounts[cluster]++` step extends the counts from the first i songs to the first i+1: keys 0..7 plus the clusters seen, counts for 0..7, NaN for any other cluster |
| DetailPanel.CountDecade | spotify-galaxy/src/components/DetailPanel.jsx:29-30 | one decade step extends the decade counts from the first i songs to the first i+1: exactly the decades seen, each with its count |
| DetailPanel.Accumulate | spotify-galaxy/src/components/DetailPanel.jsx:14-31 | the cluster keys are 0..7 plus any other cluster present; clusters 0..7 hold their song counts and any other cluster holds NaN; the three totals are the feature sums; the decade keys are exactly the decades present, each holding its song count |
| DetailPanel.ComputeStats | spotify-galaxy/src/components/DetailPanel.jsx:10-40 | empty data gives no stats; otherwise the stats hold the cluster counts and decade counts above, and each feature mean is its total / number of songs |
| DetailPanel.PresetClustersCoverData | spotify-galaxy/src/components/DetailPanel.jsx:15-24 | when every cluster is in 0..7 no key is added to 0..7, and the counts of 0..7 add up to the number of songs |
| DetailPanel.DecadesCoverData | spotify-galaxy/src/components/DetailPanel.jsx:21-30 | the counts over the decades present add up to the number of songs |
| DetailPanel.MeansInUnitInterval | spotify-galaxy/src/components/DetailPanel.jsx:33-37 | with every feature in [0, 1], each feature mean lies in [0, 1] |
| DetailPanel.RowsFrom | spotify-galaxy/src/components/DetailPanel.jsx:105-107 | one (decade, count) row per listed decade, in the listed order |
| DetailPanel.DecadesInOrder | spotify-galaxy/src/components/DetailPanel.jsx:105-106 | the timeline lists every decade once, in strictly ascending order, each with its own count |

## Left out

- Hit-testing and hovering are not part of this model. The code has no raycast or click listener and never sets the hover state. Pausing and resuming the rotation are not modelled either.
- The offline data preparation (`data_processing.py`) is not part of this model. It scales, projects and clusters the catalogue with external libraries and writes files. Its output does not include `duration_ms`, so the model takes the duration as a given integer field of the song record.
- Loading the song list over the network, the loading screen and error logging are left out. They are I/O.
- Decoding the palette's hex strings into RGB (`THREE.Color`) is a library call. The decoded palette is a parameter of `PointCloud.ColorOf`, of the buffer functions and of `PointCloud.BuildPointCloud`. The hex values are kept as the constant `PointCloud.PaletteHex`.
- PointCloud.BuildPointCloud: the buffers are `Float32Array`s. The model stores exact reals, so single-precision rounding is not modelled.
- ClusterChart.ComputeClusterStats: the means ×100 are rounded to one decimal with `toFixed(1)` and read back with `parseFloat`. The model keeps exact reals, and the `Cluster <id>` display name is not modelled. Other formatting (`toFixed` in the duration tooltip and axis, `toLocaleString`) is left out for the same reason.
- ClusterChart.ComputeClusterStats: the model takes the data as a list, so the `!data` test for a missing list is not modelled. Only the empty list is handled.
- Grouping.KeyList: JavaScript enumerates dictionary keys in a fixed order, but the model lists them in an unspecified order. Every use sorts them afterwards, so the results do not depend on it.
- The chart geometry is left out: `xScale`/`yScale`, which divide by zero for a single year or a single duration; the SVG path; and the 0.5-step `yTicks` loop over floating-point numbers.
- JSX rendering, tooltips, the recharts, three.js and post-processing composition, and the `Experience`, `InfoPanel` and `Interface` components are left out. This includes the slider handlers, which replace one end of the year range and do not keep min ≤ max.
- DetailPanel.DecadesInOrder: `parseInt` of the decade keys is the identity on integer keys, so it is not modelled separately. The dashboard component is not mounted by the app, and the model treats it on its own.
- The largest cluster count and the largest decade count (`Math.max` in `DetailPanel`) only size the bars and are not modelled.
