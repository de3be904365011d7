/**
 * The song record that every component of the galaxy consumes, as it
 * arrives in the loaded JSON catalog.
 */
module Songs {

  /** The three audio features; the catalog holds each in [0, 1]. */
  datatype Features = Features(danceability: real, energy: real, valence: real)

  /** The precomputed three-dimensional embedding coordinates. */
  datatype Position = Position(x: real, y: real, z: real)
  {
    /** `position[k]` of the JSON array `[x, y, z]`. */
    function At(k: nat): real
      requires k < 3
    {
      if k == 0 then x else if k == 1 then y else z
    }
  }

  datatype Song = Song(
    id: string,
    name: string,
    artist: string,
    year: int,
    durationMs: int,
    cluster: int,
    features: Features,
    position: Position)

  predicate InUnitInterval(v: real)
  {
    0.0 <= v <= 1.0
  }

  /** Every feature of the song lies in [0, 1]. */
  predicate FeaturesInRange(s: Song)
  {
    InUnitInterval(s.features.danceability)
    && InUnitInterval(s.features.energy)
    && InUnitInterval(s.features.valence)
  }

  // Field selectors, passed to the grouping functions as keys and values.

  function ClusterOf(s: Song): int { s.cluster }

  function YearOf(s: Song): int { s.year }

  function DanceabilityOf(s: Song): real { s.features.danceability }

  function EnergyOf(s: Song): real { s.features.energy }

  function ValenceOf(s: Song): real { s.features.valence }

  function DurationOf(s: Song): real { s.durationMs as real }
}
