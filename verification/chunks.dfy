/** One grid cell of the terrain (`chunk_info`) and how its fields are
    computed from the height-field: the integer origin, the padded horizontal
    box and the vertical range of `set_chunk_info_z` (src/core/chunk.c:16-39, 59-79). */
module Chunks {
  import opened Arith
  import opened HeightField

  /** Construction parameters of the grid. `seaLevel` is the sea level already
      truncated toward zero, the `(int)sealevel` of the source. */
  datatype Config = Config(chunkSize: nat, range: nat, dimx: nat, dimz: nat, seaLevel: int)

  /** The source divides by the cell size. */
  predicate ValidConfig(cfg: Config)
  {
    cfg.chunkSize > 0
  }

  /** Number of cells along x (`chunknumberinrow`) and along z (`chunknumberincolumn`). */
  function NRow(cfg: Config): nat
    requires ValidConfig(cfg)
  {
    CeilDiv(cfg.dimx, cfg.chunkSize)
  }

  function NCol(cfg: Config): nat
    requires ValidConfig(cfg)
  {
    CeilDiv(cfg.dimz, cfg.chunkSize)
  }

  /** Number of window cells, `(2 * chunk_range + 1)^2` (`renderedchunkcount`). */
  function WindowSize(range: nat): nat
  {
    (2 * range + 1) * (2 * range + 1)
  }

  /** Horizontal box in world units: `minxy` is `(minX, minZ)`, `maxxy` is `(maxX, maxZ)`. */
  datatype Box = Box(minX: int, minZ: int, maxX: int, maxZ: int)

  /** A grid cell. `minY`/`maxY` are the vertical range the source calls
      `minz`/`maxz`; `box` holds its `minxy`/`maxxy`. */
  datatype ChunkInfo = ChunkInfo(startX: int, startZ: int, minY: int, maxY: int, box: Box)

  /** Sentinels the vertical scan starts from. */
  const InitialMin: int := 10000
  const InitialMax: int := -10000

  /** The padded box of cell `(i, i2)`: the cell's extent shifted by half the
      field (integer division) and widened by one unit on every side. */
  function CellBox(cfg: Config, i: int, i2: int): Box
  {
    var hx := cfg.dimx / 2;
    var hz := cfg.dimz / 2;
    Box(i * cfg.chunkSize - hx - 1, i2 * cfg.chunkSize - hz - 1,
        (i + 1) * cfg.chunkSize - hx + 1, (i2 + 1) * cfg.chunkSize - hz + 1)
  }

  /** Sample `(x, z)` is one of those the vertical scan of the cell at `(x0, z0)` visits. */
  predicate InCell(cfg: Config, x0: int, z0: int, x: int, z: int)
  {
    0 <= x && 0 <= z &&
    x0 <= x < x0 + cfg.chunkSize && x < cfg.dimx && z0 <= z < z0 + cfg.chunkSize && z < cfg.dimz
  }

  /** The inner loop of `set_chunk_info_z`: folds samples `row[z..zEnd)` into
      the running minimum `lo` and maximum `hi`. */
  function ScanDepth(row: seq<int>, z: nat, zEnd: nat, lo: int, hi: int): (r: (int, int))
    requires zEnd <= |row|
    ensures r.0 <= lo && r.1 >= hi
    decreases zEnd - z
  {
    if z >= zEnd then (lo, hi)
    else
      var hi' := if row[z] > hi then row[z] else hi;
      var lo' := if row[z] < lo then row[z] else lo;
      ScanDepth(row, z + 1, zEnd, lo', hi')
  }

  /** The fold over `row[z..zEnd)` bounds every sample it visits, and each end
      is either its starting value or one of those samples. */
  lemma {:induction false} ScanDepthSpec(row: seq<int>, z: nat, zEnd: nat, lo: int, hi: int)
    requires zEnd <= |row|
    ensures var r := ScanDepth(row, z, zEnd, lo, hi);
      && (forall k :: z <= k < zEnd ==> r.0 <= row[k] <= r.1)
      && (r.0 == lo || exists k :: z <= k < zEnd && row[k] == r.0)
      && (r.1 == hi || exists k :: z <= k < zEnd && row[k] == r.1)
    decreases zEnd - z
  {
    if z < zEnd {
      var hi' := if row[z] > hi then row[z] else hi;
      var lo' := if row[z] < lo then row[z] else lo;
      ScanDepthSpec(row, z + 1, zEnd, lo', hi');
    }
  }

  /** The outer loop of `set_chunk_info_z`: folds rows `x..xEnd`, each over `[z0, zEnd)`. */
  function ScanWidth(hm: Field, x: nat, xEnd: nat, z0: nat, zEnd: nat, lo: int, hi: int): (r: (int, int))
    requires xEnd <= |hm|
    requires forall k :: x <= k < xEnd ==> zEnd <= |hm[k]|
    ensures r.0 <= lo && r.1 >= hi
    decreases xEnd - x
  {
    if x >= xEnd then (lo, hi)
    else
      var (lo', hi') := ScanDepth(hm[x], z0, zEnd, lo, hi);
      ScanWidth(hm, x + 1, xEnd, z0, zEnd, lo', hi')
  }

  /** The fold over the rectangle `[x, xEnd) x [z0, zEnd)` bounds every sample
      in it, and each end is either its starting value or one of those samples. */
  lemma {:induction false} ScanWidthSpec(hm: Field, x: nat, xEnd: nat, z0: nat, zEnd: nat, lo: int, hi: int)
    requires xEnd <= |hm|
    requires forall k :: x <= k < xEnd ==> zEnd <= |hm[k]|
    ensures var r := ScanWidth(hm, x, xEnd, z0, zEnd, lo, hi);
      && (forall a, b :: x <= a < xEnd && z0 <= b < zEnd ==> r.0 <= hm[a][b] <= r.1)
      && (r.0 == lo || exists a, b :: x <= a < xEnd && z0 <= b < zEnd && hm[a][b] == r.0)
      && (r.1 == hi || exists a, b :: x <= a < xEnd && z0 <= b < zEnd && hm[a][b] == r.1)
    decreases xEnd - x
  {
    if x < xEnd {
      var (lo', hi') := ScanDepth(hm[x], z0, zEnd, lo, hi);
      ScanDepthSpec(hm[x], z0, zEnd, lo, hi);
      ScanWidthSpec(hm, x + 1, xEnd, z0, zEnd, lo', hi');
    }
  }

  /** `set_chunk_info_z`: the vertical range `(minY, maxY)` of the cell at
      `(x0, z0)`, clipped to the field and with the maximum raised to sea level + 1. */
  function VerticalRange(cfg: Config, hm: Field, x0: nat, z0: nat): (r: (int, int))
    requires WellFormed(hm, cfg.dimx, cfg.dimz)
    ensures r.1 >= cfg.seaLevel + 1
    ensures r.0 <= InitialMin
  {
    var xEnd := if x0 + cfg.chunkSize < cfg.dimx then x0 + cfg.chunkSize else cfg.dimx;
    var zEnd := if z0 + cfg.chunkSize < cfg.dimz then z0 + cfg.chunkSize else cfg.dimz;
    var (lo, hi) := ScanWidth(hm, x0, xEnd, z0, zEnd, InitialMin, InitialMax);
    var sea := cfg.seaLevel + 1;
    (lo, if hi < sea then sea else hi)
  }

  /** The vertical range bounds every sample the cell covers, and each end is a
      sample of the cell, the sea-level floor, or the scan's starting sentinel
      (the sentinel survives only for a cell with no samples). */
  lemma VerticalRangeSpec(cfg: Config, hm: Field, x0: nat, z0: nat)
    requires WellFormed(hm, cfg.dimx, cfg.dimz)
    ensures var r := VerticalRange(cfg, hm, x0, z0);
      && (forall x, z :: InCell(cfg, x0, z0, x, z) ==> r.0 <= hm[x][z] <= r.1)
      && (r.0 == InitialMin || exists x, z :: InCell(cfg, x0, z0, x, z) && hm[x][z] == r.0)
      && (r.1 == cfg.seaLevel + 1 || r.1 == InitialMax ||
          exists x, z :: InCell(cfg, x0, z0, x, z) && hm[x][z] == r.1)
  {
    var xEnd := if x0 + cfg.chunkSize < cfg.dimx then x0 + cfg.chunkSize else cfg.dimx;
    var zEnd := if z0 + cfg.chunkSize < cfg.dimz then z0 + cfg.chunkSize else cfg.dimz;
    ScanWidthSpec(hm, x0, xEnd, z0, zEnd, InitialMin, InitialMax);
  }

  /** The `chunk_info` record create_chunk_op builds for cell `(i, i2)` from field `hm`. */
  function CellFrom(cfg: Config, hm: Field, i: nat, i2: nat): ChunkInfo
    requires WellFormed(hm, cfg.dimx, cfg.dimz)
  {
    var startX := i * cfg.chunkSize;
    var startZ := i2 * cfg.chunkSize;
    var (lo, hi) := VerticalRange(cfg, hm, startX, startZ);
    ChunkInfo(startX, startZ, lo, hi, CellBox(cfg, i, i2))
  }
}
