/**
 * The galaxy's point cloud: three flat buffers (positions, colours, scales)
 * filled in place from the filtered songs, and the per-frame rotation of
 * the points object.
 */
module PointCloud {
  import opened Songs

  /** The palette `CLUSTER_COLORS`, as 0xRRGGBB values. */
  const PaletteHex: seq<int> := [
    0xFF6B6B, // red
    0x4ECDC4, // teal
    0x45B7D1, // blue
    0xFFA07A, // orange
    0x98D8C8, // mint
    0xF7DC6F, // yellow
    0xBB8FCE, // purple
    0x85C1E2  // sky blue
  ]

  /** Scale factor from embedding coordinates to scene units. */
  const PositionScale: real := 5.0

  /** Added to the points object's `rotation.y` on every frame. */
  const RotationStep: real := 0.0005

  /** A colour as the three linear components `THREE.Color` holds. */
  datatype Rgb = Rgb(r: real, g: real, b: real)
  {
    /** Component `k` in the order the colour buffer stores them. */
    function At(k: nat): real
      requires k < 3
    {
      if k == 0 then r else if k == 1 then g else b
    }
  }

  /** What `new THREE.Color(undefined)` holds: its initial white. */
  const DefaultColor: Rgb := Rgb(1.0, 1.0, 1.0)

  /**
   * JavaScript's `a % n` on integers: the remainder takes the sign of `a`
   * (truncating division), unlike Dafny's Euclidean `%`.
   */
  function JsRem(a: int, n: int): (r: int)
    requires n > 0
    ensures -n < r < n
    ensures a >= 0 ==> r == a % n
    ensures a < 0 ==> r == (if a % n == 0 then 0 else a % n - n)
  {
    if a >= 0 then a % n
    else
      NegatedRemainder(-a, n);
      -((-a) % n)
  }

  /** The Euclidean remainder of `-b` from that of `b`. */
  lemma NegatedRemainder(b: int, n: int)
    requires b > 0 && n > 0
    ensures (-b) % n == (if b % n == 0 then 0 else n - b % n)
  {
    var q, s := b / n, b % n;
    assert b == n * q + s;
    if s == 0 {
      assert -b == n * (-q);
      EuclideanUnique(-b, n, -q, 0);
    } else {
      assert -b == n * (-q - 1) + (n - s);
      EuclideanUnique(-b, n, -q - 1, n - s);
    }
  }

  /** A quotient and remainder in [0, n) are the Euclidean ones. */
  lemma EuclideanUnique(a: int, n: int, q: int, r: int)
    requires n > 0 && 0 <= r < n && a == n * q + r
    ensures a % n == r
  {
    var q0, r0 := a / n, a % n;
    assert a == n * q0 + r0;
    assert n * (q - q0) == n * q - n * q0 == r0 - r;
    SmallMultipleIsZero(n, q - q0);
  }

  /** The only multiple of `n` strictly between `-n` and `n` is 0. */
  lemma SmallMultipleIsZero(n: int, k: int)
    requires n > 0 && -n < n * k < n
    ensures k == 0
  {
    if k >= 1 {
      MultipleAtLeast(n, k);
      assert false;
    } else if k <= -1 {
      assert n * (-k) == -(n * k);
      MultipleAtLeast(n, -k);
      assert false;
    }
  }

  /** A positive multiple of `n` is at least `n`. */
  lemma {:induction false} MultipleAtLeast(n: int, k: int)
    requires n > 0 && k >= 1
    ensures n * k >= n
    decreases k
  {
    if k > 1 {
      MultipleAtLeast(n, k - 1);
      assert n * k == n * (k - 1) + n;
    }
  }

  /**
   * The colour of a cluster: `CLUSTER_COLORS[cluster % CLUSTER_COLORS.length]`
   * decoded by `THREE.Color`. `palette` holds the decoded entries of
   * PaletteHex (the decoding is the library's). A negative remainder indexes
   * outside the palette, the lookup yields `undefined`, and the colour stays
   * white.
   */
  function ColorOf(cluster: int, palette: seq<Rgb>): (c: Rgb)
    requires |palette| == |PaletteHex|
    ensures cluster >= 0 ==> c == palette[cluster % 8]
    ensures cluster < 0 && cluster % 8 != 0 ==> c == DefaultColor
    ensures cluster < 0 && cluster % 8 == 0 ==> c == palette[0]
  {
    var index := JsRem(cluster, |PaletteHex|);
    if 0 <= index then palette[index] else DefaultColor
  }

  /** Clusters equal modulo 8 and both non-negative share a colour. */
  lemma SameColorForSameRemainder(c1: int, c2: int, palette: seq<Rgb>)
    requires |palette| == |PaletteHex|
    requires c1 >= 0 && c2 >= 0 && c1 % 8 == c2 % 8
    ensures ColorOf(c1, palette) == ColorOf(c2, palette)
  {
  }

  /**
   * The point size for a song's energy: `0.3 + energy * 0.7`. There is no
   * clamp: energies in [0, 1] give sizes in [0.3, 1.0], others leave it.
   */
  function Scale(energy: real): (s: real)
    ensures 0.0 <= energy <= 1.0 ==> 0.3 <= s <= 1.0
    ensures energy < 0.0 ==> s < 0.3
    ensures energy > 1.0 ==> s > 1.0
    ensures energy == 0.0 ==> s == 0.3
    ensures energy == 1.0 ==> s == 1.0
  {
    0.3 + energy * 0.7
  }

  /** The three position slots of one song: its coordinates times PositionScale. */
  function PositionTriple(song: Song): seq<real>
  {
    [song.position.At(0) * PositionScale, song.position.At(1) * PositionScale, song.position.At(2) * PositionScale]
  }

  /** The three colour slots of one song: the components of its cluster colour. */
  function ColorTriple(song: Song, palette: seq<Rgb>): seq<real>
    requires |palette| == |PaletteHex|
  {
    var color := ColorOf(song.cluster, palette);
    [color.r, color.g, color.b]
  }

  /** The position buffer the build leaves for `data`: the songs' triples in order. */
  function PositionBuffer(data: seq<Song>): (buffer: seq<real>)
    ensures |buffer| == 3 * |data|
    decreases |data|
  {
    if data == [] then [] else PositionBuffer(data[..|data| - 1]) + PositionTriple(data[|data| - 1])
  }

  /** The colour buffer the build leaves for `data`. */
  function ColorBuffer(data: seq<Song>, palette: seq<Rgb>): (buffer: seq<real>)
    requires |palette| == |PaletteHex|
    ensures |buffer| == 3 * |data|
    decreases |data|
  {
    if data == [] then [] else ColorBuffer(data[..|data| - 1], palette) + ColorTriple(data[|data| - 1], palette)
  }

  /** The scale buffer the build leaves for `data`. */
  function ScaleBuffer(data: seq<Song>): (buffer: seq<real>)
    ensures |buffer| == |data|
    decreases |data|
  {
    if data == [] then [] else ScaleBuffer(data[..|data| - 1]) + [Scale(data[|data| - 1].features.energy)]
  }

  /** Slot 3i+k of the position buffer is coordinate k of song i, times 5. */
  lemma {:induction false} PositionSlot(data: seq<Song>, i: nat, k: nat)
    requires i < |data| && k < 3
    ensures PositionBuffer(data)[3 * i + k] == PositionScale * data[i].position.At(k)
    decreases |data|
  {
    var n := |data| - 1;
    if i < n {
      assert data[..n][i] == data[i];
      PositionSlot(data[..n], i, k);
    }
  }

  /** Slot 3i+k of the colour buffer is component k of song i's cluster colour. */
  lemma {:induction false} ColorSlot(data: seq<Song>, palette: seq<Rgb>, i: nat, k: nat)
    requires |palette| == |PaletteHex|
    requires i < |data| && k < 3
    ensures ColorBuffer(data, palette)[3 * i + k] == ColorOf(data[i].cluster, palette).At(k)
    decreases |data|
  {
    var n := |data| - 1;
    if i < n {
      assert data[..n][i] == data[i];
      ColorSlot(data[..n], palette, i, k);
    }
  }

  /** Slot i of the scale buffer is the size for song i's energy. */
  lemma {:induction false} ScaleSlot(data: seq<Song>, i: nat)
    requires i < |data|
    ensures ScaleBuffer(data)[i] == Scale(data[i].features.energy)
    decreases |data|
  {
    var n := |data| - 1;
    if i < n {
      assert data[..n][i] == data[i];
      ScaleSlot(data[..n], i);
    }
  }

  /**
   * Two songs lists that agree at position i give the same slots 3i..3i+2
   * and i: what the build writes for a song depends on that song alone.
   */
  lemma SlotsDependOnSongAlone(a: seq<Song>, b: seq<Song>, palette: seq<Rgb>, i: nat, k: nat)
    requires |palette| == |PaletteHex|
    requires i < |a| && i < |b| && a[i] == b[i] && k < 3
    ensures PositionBuffer(a)[3 * i + k] == PositionBuffer(b)[3 * i + k]
    ensures ColorBuffer(a, palette)[3 * i + k] == ColorBuffer(b, palette)[3 * i + k]
    ensures ScaleBuffer(a)[i] == ScaleBuffer(b)[i]
  {
    PositionSlot(a, i, k);
    PositionSlot(b, i, k);
    ColorSlot(a, palette, i, k);
    ColorSlot(b, palette, i, k);
    ScaleSlot(a, i);
    ScaleSlot(b, i);
  }

  /** With every energy in [0, 1], every scale lies in [0.3, 1.0]. */
  lemma ScalesBounded(data: seq<Song>, i: nat)
    requires i < |data| && InUnitInterval(data[i].features.energy)
    ensures 0.3 <= ScaleBuffer(data)[i] <= 1.0
  {
    ScaleSlot(data, i);
  }

  /** Writes `triple` into slots 3i, 3i+1 and 3i+2 of `buffer`, in that order. */
  method WriteTriple(buffer: array<real>, i: nat, triple: seq<real>)
    requires |triple| == 3 && 3 * i + 3 <= buffer.Length
    modifies buffer
    ensures buffer[..3 * i + 3] == old(buffer[..3 * i]) + triple
    ensures buffer[3 * i + 3..] == old(buffer[3 * i + 3..])
  {
    buffer[3 * i] := triple[0];
    buffer[3 * i + 1] := triple[1];
    buffer[3 * i + 2] := triple[2];
    assert buffer[..3 * i + 3] == buffer[..3 * i] + triple;
  }

  /**
   * The `useMemo` buffer build. Three zero-filled `Float32Array`s of lengths
   * 3N, 3N and N are allocated, then the forEach writes slots 3i..3i+2 of the
   * first two and slot i of the third from song i.
   */
  method BuildPointCloud(data: seq<Song>, palette: seq<Rgb>)
      returns (positions: array<real>, colors: array<real>, scales: array<real>)
    requires |palette| == |PaletteHex|
    ensures fresh(positions) && fresh(colors) && fresh(scales)
    ensures positions[..] == PositionBuffer(data)
    ensures colors[..] == ColorBuffer(data, palette)
    ensures scales[..] == ScaleBuffer(data)
  {
    var n := |data|;
    positions := new real[3 * n](_ => 0.0);
    colors := new real[3 * n](_ => 0.0);
    scales := new real[n](_ => 0.0);
    for i := 0 to n
      invariant positions[..3 * i] == PositionBuffer(data[..i])
      invariant colors[..3 * i] == ColorBuffer(data[..i], palette)
      invariant scales[..i] == ScaleBuffer(data[..i])
    {
      var song := data[i];
      assert data[..i + 1][..i] == data[..i];
      WriteTriple(positions, i, PositionTriple(song));
      WriteTriple(colors, i, ColorTriple(song, palette));
      ghost var doneScales := scales[..i];
      scales[i] := Scale(song.features.energy);
      assert scales[..i + 1] == doneScales + [Scale(song.features.energy)];
    }
    assert data[..n] == data;
    assert positions[..] == positions[..3 * n];
    assert colors[..] == colors[..3 * n];
    assert scales[..] == scales[..n];
  }

  /** The points object the frame callback rotates. */
  class Points {
    var rotationY: real

    constructor (angle: real)
      ensures rotationY == angle
    {
      rotationY := angle;
    }
  }

  /**
   * The `useFrame` callback: when the ref holds the points object, its
   * `rotation.y` grows by RotationStep; before mounting (null) nothing happens.
   */
  method OnFrame(mesh: Points?)
    modifies mesh
    ensures mesh != null ==> mesh.rotationY == old(mesh.rotationY) + RotationStep
    ensures mesh != null ==> mesh.rotationY > old(mesh.rotationY)
  {
    if mesh != null {
      mesh.rotationY := mesh.rotationY + RotationStep;
    }
  }

  /** The angle after `frames` calls of OnFrame on a mounted object. */
  function AngleAfter(start: real, frames: nat): (angle: real)
    ensures angle == start + frames as real * RotationStep
    ensures angle >= start
  {
    if frames == 0 then start else AngleAfter(start, frames - 1) + RotationStep
  }

  /** The angle never decreases from one frame count to a later one. */
  lemma {:induction false} AngleMonotone(start: real, m: nat, n: nat)
    requires m <= n
    ensures AngleAfter(start, m) <= AngleAfter(start, n)
  {
  }

  /** Frames run one after another: the counts add. */
  lemma {:induction false} AngleAfterAdds(start: real, m: nat, n: nat)
    ensures AngleAfter(AngleAfter(start, m), n) == AngleAfter(start, m + n)
  {
  }
}
