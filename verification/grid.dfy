/** Grid construction (`create_chunk_op`, src/core/chunk.c:41-95): the cells
    in x-major order, their boxes and vertical ranges, and the plateau stamped
    around the centre cell when the landmark is enabled. */
module ChunkGrid {
  import opened Arith
  import opened HeightField
  import opened Chunks
  import opened Sequences

  /** The part of `chunk_op` that the visibility tracker reads: the cell counts
      along x (`chunknumberinrow`) and z (`chunknumberincolumn`), the window
      radius (`chunk_range`) and the cells, cell `(i, i2)` at index `i * ncol + i2`. */
  datatype Grid = Grid(nrow: nat, ncol: nat, range: nat, cells: seq<ChunkInfo>)

  predicate Shaped(g: Grid)
  {
    |g.cells| == g.nrow * g.ncol
  }

  /** Cell `(i, i2)`, stored at flat index `i * ncol + i2`. */
  function CellAt(g: Grid, i: nat, i2: nat): ChunkInfo
    requires Shaped(g) && i < g.nrow && i2 < g.ncol
  {
    IndexInGrid(i, i2, g.nrow, g.ncol);
    g.cells[i * g.ncol + i2]
  }

  /** The flat index of cell `(i, i2)` is an index of the cell list. */
  lemma CellIndexInRange(g: Grid, i: nat, i2: nat)
    requires Shaped(g) && i < g.nrow && i2 < g.ncol
    ensures 0 <= i * g.ncol + i2 < |g.cells|
  {
    IndexInGrid(i, i2, g.nrow, g.ncol);
  }

  /** The layout create_chunk_op produces: `ceil(dimx/cs)` by `ceil(dimz/cs)`
      cells, cell `(i, i2)` with origin `(i*cs, i2*cs)` and the padded box. */
  ghost predicate Tiled(g: Grid, cfg: Config)
  {
    && ValidConfig(cfg)
    && g.nrow == NRow(cfg) && g.ncol == NCol(cfg) && g.range == cfg.range
    && Shaped(g)
    && forall i, i2 | 0 <= i < g.nrow && 0 <= i2 < g.ncol ::
         && CellAt(g, i, i2).startX == i * cfg.chunkSize
         && CellAt(g, i, i2).startZ == i2 * cfg.chunkSize
         && CellAt(g, i, i2).box == CellBox(cfg, i, i2)
  }

  /** The process-wide `gsu_can_exist` flag after the guard at line 44: it is
      only ever set, never cleared, and it is set exactly when a model is
      loaded and the field is wider than two landmarks in both directions. */
  function LandmarkEnabled(priorFlag: bool, modelLoaded: bool, dimx: nat, dimz: nat): (r: bool)
    ensures priorFlag ==> r
    ensures modelLoaded && dimx > 128 && dimz > 64 ==> r
    ensures r && !priorFlag ==> modelLoaded && dimx > 128 && dimz > 64
  {
    priorFlag || (dimx > 2 * LandmarkWidth && dimz > 2 * LandmarkDepth && modelLoaded)
  }

  /** The plateau is stamped when the flag is set and the loop reaches the centre cell. */
  predicate Stamps(cfg: Config, flag: bool)
    requires ValidConfig(cfg)
  {
    flag && NRow(cfg) >= 1 && NCol(cfg) >= 1
  }

  /** Origin of the centre cell `(nrow / 2, ncol / 2)`. */
  function CentreX(cfg: Config): nat
    requires ValidConfig(cfg)
  {
    NRow(cfg) / 2 * cfg.chunkSize
  }

  function CentreZ(cfg: Config): nat
    requires ValidConfig(cfg)
  {
    NCol(cfg) / 2 * cfg.chunkSize
  }

  /** Flat index of the centre cell. */
  function CentreIndex(cfg: Config): nat
    requires ValidConfig(cfg)
  {
    NRow(cfg) / 2 * NCol(cfg) + NCol(cfg) / 2
  }

  /** The source writes the plateau without a bounds check: when it is stamped
      it must fit in the field. */
  predicate StampFits(cfg: Config, flag: bool)
    requires ValidConfig(cfg)
  {
    Stamps(cfg, flag) ==> PlateauFits(cfg.dimx, cfg.dimz, CentreX(cfg), CentreZ(cfg))
  }

  /** What the construction loop leaves in the height-field. */
  ghost predicate FieldAfter(cfg: Config, flag: bool, hm: Field, hm': Field)
    requires ValidConfig(cfg)
  {
    && WellFormed(hm', cfg.dimx, cfg.dimz)
    && (Stamps(cfg, flag) ==> IsPlateauStamp(hm, hm', CentreX(cfg), CentreZ(cfg)))
    && (!Stamps(cfg, flag) ==> hm' == hm)
  }

  /** Every cell `(i, i2)` is the record built from the field `fieldOf(i, i2)`
      its vertical range was scanned on. */
  ghost predicate CellsFrom(g: Grid, cfg: Config, fieldOf: (nat, nat) -> Field)
  {
    Shaped(g) &&
    forall i, i2 | 0 <= i < g.nrow && 0 <= i2 < g.ncol ::
      WellFormed(fieldOf(i, i2), cfg.dimx, cfg.dimz) &&
      CellAt(g, i, i2) == CellFrom(cfg, fieldOf(i, i2), i, i2)
  }

  /** Every cell scanned on the same field. */
  function Everywhere(hm: Field): (nat, nat) -> Field
  {
    (i: nat, i2: nat) => hm
  }

  /** Cell `(i, i2)` comes after the centre cell in x-major order. */
  predicate AfterCentre(cfg: Config, i: nat, i2: nat)
    requires ValidConfig(cfg)
  {
    i > NRow(cfg) / 2 || (i == NRow(cfg) / 2 && i2 > NCol(cfg) / 2)
  }

  /** In the source the centre cell and every cell before it in x-major order
      read the height-field before the plateau is stamped; later cells read it after. */
  function AsWrittenField(cfg: Config, flag: bool, hm: Field, hm': Field): (nat, nat) -> Field
    requires ValidConfig(cfg)
  {
    (i: nat, i2: nat) => if Stamps(cfg, flag) && AfterCentre(cfg, i, i2) then hm' else hm
  }

  /** Column `a` of the x-major order: cell `(a, b)` at position `b`, scanned on `fieldOf(a, b)`. */
  ghost predicate ColumnFrom(col: seq<ChunkInfo>, cfg: Config, a: nat, ncol: nat, fieldOf: (nat, nat) -> Field)
  {
    |col| == ncol &&
    forall b :: 0 <= b < ncol ==>
      WellFormed(fieldOf(a, b), cfg.dimx, cfg.dimz) && col[b] == CellFrom(cfg, fieldOf(a, b), a, b)
  }

  /** Columns `0 .. |cols|` of the x-major order. */
  ghost predicate ColumnsFrom(cols: seq<seq<ChunkInfo>>, cfg: Config, ncol: nat, fieldOf: (nat, nat) -> Field)
  {
    forall a :: 0 <= a < |cols| ==> ColumnFrom(cols[a], cfg, a, ncol, fieldOf)
  }

  /** Pushing the columns one after the other, in order, gives a tiled grid. */
  lemma ColumnsTile(cfg: Config, cols: seq<seq<ChunkInfo>>, fieldOf: (nat, nat) -> Field)
    requires ValidConfig(cfg)
    requires |cols| == NRow(cfg)
    requires ColumnsFrom(cols, cfg, NCol(cfg), fieldOf)
    ensures Tiled(Grid(NRow(cfg), NCol(cfg), cfg.range, Flatten(cols)), cfg)
    ensures CellsFrom(Grid(NRow(cfg), NCol(cfg), cfg.range, Flatten(cols)), cfg, fieldOf)
  {
    var g := Grid(NRow(cfg), NCol(cfg), cfg.range, Flatten(cols));
    assert forall a :: 0 <= a < |cols| ==> |cols[a]| == g.ncol by {
      forall a | 0 <= a < |cols| ensures |cols[a]| == g.ncol {
        assert ColumnFrom(cols[a], cfg, a, g.ncol, fieldOf);
      }
    }
    FlattenLength(cols, g.ncol);
    forall i, i2 | 0 <= i < g.nrow && 0 <= i2 < g.ncol
      ensures WellFormed(fieldOf(i, i2), cfg.dimx, cfg.dimz)
      ensures CellAt(g, i, i2) == CellFrom(cfg, fieldOf(i, i2), i, i2)
    {
      assert ColumnFrom(cols[i], cfg, i, g.ncol, fieldOf);
      FlattenAt(cols, g.ncol, i, i2);
    }
  }

  /** The columns before the centre column read the unstamped field whatever
      the stamp later writes. */
  lemma BeforeCentreUnstamped(cfg: Config, flag: bool, cols: seq<seq<ChunkInfo>>, hm: Field, h1: Field, h2: Field)
    requires ValidConfig(cfg)
    requires |cols| <= NRow(cfg) / 2
    requires ColumnsFrom(cols, cfg, NCol(cfg), AsWrittenField(cfg, flag, hm, h1))
    ensures ColumnsFrom(cols, cfg, NCol(cfg), AsWrittenField(cfg, flag, hm, h2))
  {
    forall a, b | 0 <= a < |cols| && 0 <= b < NCol(cfg)
      ensures AsWrittenField(cfg, flag, hm, h1)(a, b) == hm
      ensures AsWrittenField(cfg, flag, hm, h2)(a, b) == hm
    {
      assert !AfterCentre(cfg, a, b);
    }
    forall a | 0 <= a < |cols|
      ensures ColumnFrom(cols[a], cfg, a, NCol(cfg), AsWrittenField(cfg, flag, hm, h2))
    {
      assert ColumnFrom(cols[a], cfg, a, NCol(cfg), AsWrittenField(cfg, flag, hm, h1));
    }
  }

  /** Cells `from .. to` of column `i` (part of the inner loop, lines 64-80),
      each scanned on `hm`. */
  method ScanCells(cfg: Config, hm: Field, i: nat, from: nat, to: nat) returns (col: seq<ChunkInfo>)
    requires ValidConfig(cfg)
    requires WellFormed(hm, cfg.dimx, cfg.dimz)
    requires from <= to
    ensures |col| == to - from
    ensures forall j :: 0 <= j < |col| ==> col[j] == CellFrom(cfg, hm, i, from + j)
  {
    col := [];
    while |col| < to - from
      invariant |col| <= to - from
      invariant forall j :: 0 <= j < |col| ==> col[j] == CellFrom(cfg, hm, i, from + j)
    {
      col := col + [CellFrom(cfg, hm, i, from + |col|)];
    }
  }

  /** The inner loop for the centre column: cells up to the centre are scanned
      on the original field, then the plateau is stamped (lines 81-92), then the
      rest are scanned on the stamped field. */
  method ScanCentreColumn(cfg: Config, hm: Field) returns (col: seq<ChunkInfo>, hm': Field)
    requires ValidConfig(cfg)
    requires WellFormed(hm, cfg.dimx, cfg.dimz)
    requires StampFits(cfg, true) && NRow(cfg) >= 1 && NCol(cfg) >= 1
    ensures |col| == NCol(cfg)
    ensures IsPlateauStamp(hm, hm', CentreX(cfg), CentreZ(cfg)) && WellFormed(hm', cfg.dimx, cfg.dimz)
    ensures forall j :: 0 <= j < |col| ==>
      col[j] == CellFrom(cfg, if j > NCol(cfg) / 2 then hm' else hm, NRow(cfg) / 2, j)
  {
    var i, ncol := NRow(cfg) / 2, NCol(cfg);
    var upToCentre := ScanCells(cfg, hm, i, 0, ncol / 2 + 1);
    hm' := StampPlateau(hm, cfg.dimx, cfg.dimz, CentreX(cfg), CentreZ(cfg));
    var rest := ScanCells(cfg, hm', i, ncol / 2 + 1, ncol);
    col := upToCentre + rest;
  }

  /** The double loop of create_chunk_op (lines 59-95) as written: each cell is
      pushed and scanned in x-major order, and the plateau is stamped right
      after the centre cell has been scanned. `priorFlag` is the value of
      `gsu_can_exist` before the call; the returned `flag` is its value after. */
  method CreateGrid(cfg: Config, hm: Field, priorFlag: bool, modelLoaded: bool)
    returns (g: Grid, hm': Field, flag: bool, centre: Option<nat>)
    requires ValidConfig(cfg)
    requires WellFormed(hm, cfg.dimx, cfg.dimz)
    requires StampFits(cfg, LandmarkEnabled(priorFlag, modelLoaded, cfg.dimx, cfg.dimz))
    ensures flag == LandmarkEnabled(priorFlag, modelLoaded, cfg.dimx, cfg.dimz)
    ensures Tiled(g, cfg)
    ensures FieldAfter(cfg, flag, hm, hm')
    ensures CellsFrom(g, cfg, AsWrittenField(cfg, flag, hm, hm'))
    ensures centre.Some? <==> Stamps(cfg, flag)
    ensures centre.Some? ==> centre.value < |g.cells| && g.cells[centre.value] == CellAt(g, g.nrow / 2, g.ncol / 2)
  {
    flag := LandmarkEnabled(priorFlag, modelLoaded, cfg.dimx, cfg.dimz);
    var cols: seq<seq<ChunkInfo>> := [];
    hm' := hm;
    while |cols| < NRow(cfg)
      invariant Built(cfg, flag, hm, hm', cols)
    {
      var col;
      col, hm' := NextColumn(cfg, flag, hm, hm', cols);
      cols := cols + [col];
    }
    g := Grid(NRow(cfg), NCol(cfg), cfg.range, Flatten(cols));
    ColumnsTile(cfg, cols, AsWrittenField(cfg, flag, hm, hm'));
    centre := None;
    if Stamps(cfg, flag) {
      CentreIndexAt(g, cfg);
      centre := Some(CentreIndex(cfg));
    }
  }

  /** State of the double loop once columns `0 .. |cols|` are pushed: the stamp
      has happened exactly when the centre column is among them. */
  ghost predicate Built(cfg: Config, flag: bool, hm: Field, hm': Field, cols: seq<seq<ChunkInfo>>)
  {
    && ValidConfig(cfg)
    && |cols| <= NRow(cfg)
    && WellFormed(hm, cfg.dimx, cfg.dimz)
    && WellFormed(hm', cfg.dimx, cfg.dimz)
    && StampFits(cfg, flag)
    && (Stamps(cfg, flag) && |cols| > NRow(cfg) / 2 ==> IsPlateauStamp(hm, hm', CentreX(cfg), CentreZ(cfg)))
    && (!(Stamps(cfg, flag) && |cols| > NRow(cfg) / 2) ==> hm' == hm)
    && ColumnsFrom(cols, cfg, NCol(cfg), AsWrittenField(cfg, flag, hm, hm'))
  }

  /** One pass of the outer loop (lines 59-95): scans column `|cols|`, stamping
      the plateau after its centre cell when this is the centre column. */
  method NextColumn(cfg: Config, flag: bool, hm: Field, hm': Field, cols: seq<seq<ChunkInfo>>)
    returns (col: seq<ChunkInfo>, hm'': Field)
    requires Built(cfg, flag, hm, hm', cols) && |cols| < NRow(cfg)
    ensures Built(cfg, flag, hm, hm'', cols + [col])
  {
    var i := |cols|;
    if Stamps(cfg, flag) && i == NRow(cfg) / 2 {
      col, hm'' := ScanCentreColumn(cfg, hm);
      BeforeCentreUnstamped(cfg, flag, cols, hm, hm', hm'');
      CentreColumnFrom(cfg, flag, col, hm, hm'');
    } else {
      hm'' := hm';
      col := ScanCells(cfg, hm', i, 0, NCol(cfg));
      assert ColumnFrom(col, cfg, i, NCol(cfg), AsWrittenField(cfg, flag, hm, hm''));
    }
    AppendColumn(cfg, cols, col, AsWrittenField(cfg, flag, hm, hm''));
  }

  /** Adding column `|cols|` to the first columns. */
  lemma AppendColumn(cfg: Config, cols: seq<seq<ChunkInfo>>, col: seq<ChunkInfo>, fieldOf: (nat, nat) -> Field)
    requires ValidConfig(cfg)
    requires ColumnsFrom(cols, cfg, NCol(cfg), fieldOf)
    requires ColumnFrom(col, cfg, |cols|, NCol(cfg), fieldOf)
    ensures ColumnsFrom(cols + [col], cfg, NCol(cfg), fieldOf)
  {
    assert forall a :: 0 <= a < |cols| ==> (cols + [col])[a] == cols[a];
  }

  /** The centre column as ScanCentreColumn returns it is the as-written column. */
  lemma CentreColumnFrom(cfg: Config, flag: bool, col: seq<ChunkInfo>, hm: Field, hm': Field)
    requires ValidConfig(cfg) && Stamps(cfg, flag)
    requires WellFormed(hm, cfg.dimx, cfg.dimz) && WellFormed(hm', cfg.dimx, cfg.dimz)
    requires |col| == NCol(cfg)
    requires forall j :: 0 <= j < |col| ==>
      col[j] == CellFrom(cfg, if j > NCol(cfg) / 2 then hm' else hm, NRow(cfg) / 2, j)
    ensures ColumnFrom(col, cfg, NRow(cfg) / 2, NCol(cfg), AsWrittenField(cfg, flag, hm, hm'))
  {
    forall b | 0 <= b < NCol(cfg)
      ensures AsWrittenField(cfg, flag, hm, hm')(NRow(cfg) / 2, b) == if b > NCol(cfg) / 2 then hm' else hm
    {
    }
  }

  /** The same loop without the stamp: cell `(i, i2)` scanned on `hm`. */
  method LayOutCells(cfg: Config, hm: Field) returns (g: Grid)
    requires ValidConfig(cfg)
    requires WellFormed(hm, cfg.dimx, cfg.dimz)
    ensures Tiled(g, cfg)
    ensures CellsFrom(g, cfg, Everywhere(hm))
  {
    var nrow, ncol := NRow(cfg), NCol(cfg);
    var cols: seq<seq<ChunkInfo>> := [];
    while |cols| < nrow
      invariant |cols| <= nrow
      invariant ColumnsFrom(cols, cfg, ncol, Everywhere(hm))
    {
      var col := ScanCells(cfg, hm, |cols|, 0, ncol);
      assert ColumnFrom(col, cfg, |cols|, ncol, Everywhere(hm));
      cols := cols + [col];
    }
    g := Grid(nrow, ncol, cfg.range, Flatten(cols));
    ColumnsTile(cfg, cols, Everywhere(hm));
  }

  /** Every cell's vertical range bounds every sample of `hm` the cell covers. */
  ghost predicate RangesBound(g: Grid, cfg: Config, hm: Field)
    requires Tiled(g, cfg)
    requires WellFormed(hm, cfg.dimx, cfg.dimz)
  {
    forall i, i2, x, z | 0 <= i < g.nrow && 0 <= i2 < g.ncol &&
                         InCell(cfg, CellAt(g, i, i2).startX, CellAt(g, i, i2).startZ, x, z) ::
      CellAt(g, i, i2).minY <= hm[x][z] <= CellAt(g, i, i2).maxY
  }

  /** Corrected construction: stamp the plateau first, then scan every cell on
      the final height-field, so that every vertical range bounds the terrain
      that is drawn. */
  method CreateGridStampFirst(cfg: Config, hm: Field, priorFlag: bool, modelLoaded: bool)
    returns (g: Grid, hm': Field, flag: bool)
    requires ValidConfig(cfg)
    requires WellFormed(hm, cfg.dimx, cfg.dimz)
    requires StampFits(cfg, LandmarkEnabled(priorFlag, modelLoaded, cfg.dimx, cfg.dimz))
    ensures flag == LandmarkEnabled(priorFlag, modelLoaded, cfg.dimx, cfg.dimz)
    ensures Tiled(g, cfg)
    ensures FieldAfter(cfg, flag, hm, hm')
    ensures RangesBound(g, cfg, hm')
  {
    flag := LandmarkEnabled(priorFlag, modelLoaded, cfg.dimx, cfg.dimz);
    hm' := hm;
    if Stamps(cfg, flag) {
      hm' := StampPlateau(hm, cfg.dimx, cfg.dimz, CentreX(cfg), CentreZ(cfg));
    }
    g := LayOutCells(cfg, hm');
    SameFieldRangesBound(g, cfg, hm');
  }

  /** Cells all scanned on `hm` have vertical ranges that bound `hm`. */
  lemma SameFieldRangesBound(g: Grid, cfg: Config, hm: Field)
    requires Tiled(g, cfg)
    requires WellFormed(hm, cfg.dimx, cfg.dimz)
    requires CellsFrom(g, cfg, Everywhere(hm))
    ensures RangesBound(g, cfg, hm)
  {
    forall i, i2, x, z | 0 <= i < g.nrow && 0 <= i2 < g.ncol &&
                         InCell(cfg, CellAt(g, i, i2).startX, CellAt(g, i, i2).startZ, x, z)
      ensures CellAt(g, i, i2).minY <= hm[x][z] <= CellAt(g, i, i2).maxY
    {
      assert Everywhere(hm)(i, i2) == hm;
      CellRangeBounds(cfg, hm, i, i2, x, z);
    }
  }

  /** The vertical range of one cell bounds the samples it covers. */
  lemma CellRangeBounds(cfg: Config, hm: Field, i: nat, i2: nat, x: int, z: int)
    requires WellFormed(hm, cfg.dimx, cfg.dimz)
    requires InCell(cfg, i * cfg.chunkSize, i2 * cfg.chunkSize, x, z)
    ensures CellFrom(cfg, hm, i, i2).minY <= hm[x][z] <= CellFrom(cfg, hm, i, i2).maxY
  {
    VerticalRangeSpec(cfg, hm, i * cfg.chunkSize, i2 * cfg.chunkSize);
  }

  /** Neighbouring boxes overlap by exactly two units (one unit of padding from
      each side) along the axis they are neighbours on, and share their extent
      along the other axis. */
  lemma NeighbourBoxesOverlap(g: Grid, cfg: Config, i: nat, i2: nat)
    requires Tiled(g, cfg)
    requires i < g.nrow && i2 < g.ncol
    ensures i + 1 < g.nrow ==>
      && CellAt(g, i, i2).box.maxX - CellAt(g, i + 1, i2).box.minX == 2
      && CellAt(g, i, i2).box.minZ == CellAt(g, i + 1, i2).box.minZ
      && CellAt(g, i, i2).box.maxZ == CellAt(g, i + 1, i2).box.maxZ
    ensures i2 + 1 < g.ncol ==>
      && CellAt(g, i, i2).box.maxZ - CellAt(g, i, i2 + 1).box.minZ == 2
      && CellAt(g, i, i2).box.minX == CellAt(g, i, i2 + 1).box.minX
      && CellAt(g, i, i2).box.maxX == CellAt(g, i, i2 + 1).box.maxX
  {
  }

  /** Every sample of the field is scanned by cell `(x / cs, z / cs)`; by
      OnlyOwner it is scanned by no other cell. */
  lemma SampleOwner(g: Grid, cfg: Config, x: int, z: int)
    requires Tiled(g, cfg)
    requires 0 <= x < cfg.dimx && 0 <= z < cfg.dimz
    ensures x / cfg.chunkSize < g.nrow && z / cfg.chunkSize < g.ncol
    ensures InCell(cfg, CellAt(g, x / cfg.chunkSize, z / cfg.chunkSize).startX,
                   CellAt(g, x / cfg.chunkSize, z / cfg.chunkSize).startZ, x, z)
  {
    var cs := cfg.chunkSize;
    var i0, j0 := x / cs, z / cs;
    BlockInRange(x, cfg.dimx, cs);
    BlockInRange(z, cfg.dimz, cs);
    DivBlock(x, cs);
    DivBlock(z, cs);
    assert CellAt(g, i0, j0).startX == i0 * cs && CellAt(g, i0, j0).startZ == j0 * cs;
  }

  /** A cell that scans sample `(x, z)` is cell `(x / cs, z / cs)`. */
  lemma OnlyOwner(g: Grid, cfg: Config, i: nat, i2: nat, x: int, z: int)
    requires Tiled(g, cfg)
    requires i < g.nrow && i2 < g.ncol
    requires InCell(cfg, CellAt(g, i, i2).startX, CellAt(g, i, i2).startZ, x, z)
    ensures i == x / cfg.chunkSize && i2 == z / cfg.chunkSize
  {
    var cs := cfg.chunkSize;
    assert CellAt(g, i, i2).startX == i * cs && CellAt(g, i, i2).startZ == i2 * cs;
    DivUnique(i, x, cs);
    DivUnique(i2, z, cs);
  }

  /** `centerchunkid` (line 83): the flat index of the centre cell, whose origin
      the plateau is stamped around. */
  lemma CentreIndexAt(g: Grid, cfg: Config)
    requires Tiled(g, cfg) && g.nrow >= 1 && g.ncol >= 1
    ensures CentreIndex(cfg) < |g.cells|
    ensures g.cells[CentreIndex(cfg)] == CellAt(g, g.nrow / 2, g.ncol / 2)
    ensures g.cells[CentreIndex(cfg)].startX == CentreX(cfg)
    ensures g.cells[CentreIndex(cfg)].startZ == CentreZ(cfg)
  {
    IndexInGrid(g.nrow / 2, g.ncol / 2, g.nrow, g.ncol);
  }

  /** Whatever the field, as written the centre cell's range is taken before
      the plateau exists: when the plateau rises above the sea floor and above
      every sample the centre cell held, the centre cell's `maxY` lies below
      the plateau sample at the cell's own origin, so the grid's ranges do not
      bound the field that is drawn. */
  lemma AsWrittenCentreStale(g: Grid, cfg: Config, flag: bool, hm: Field, hm': Field)
    requires Tiled(g, cfg)
    requires WellFormed(hm, cfg.dimx, cfg.dimz)
    requires Stamps(cfg, flag) && StampFits(cfg, flag)
    requires FieldAfter(cfg, flag, hm, hm')
    requires CellsFrom(g, cfg, AsWrittenField(cfg, flag, hm, hm'))
    requires cfg.seaLevel + 1 < PlateauHeight
    requires forall x, z | InCell(cfg, CentreX(cfg), CentreZ(cfg), x, z) :: hm[x][z] < PlateauHeight
    ensures CellAt(g, g.nrow / 2, g.ncol / 2).maxY < hm'[CentreX(cfg)][CentreZ(cfg)] == PlateauHeight
    ensures !RangesBound(g, cfg, hm')
  {
    var i, i2 := g.nrow / 2, g.ncol / 2;
    var x0, z0 := CentreX(cfg), CentreZ(cfg);
    assert !AfterCentre(cfg, i, i2);
    assert AsWrittenField(cfg, flag, hm, hm')(i, i2) == hm;
    assert CellAt(g, i, i2) == CellFrom(cfg, hm, i, i2);
    VerticalRangeSpec(cfg, hm, x0, z0);
    assert InPlateau(x0, z0, x0, z0);
    assert InCell(cfg, CellAt(g, i, i2).startX, CellAt(g, i, i2).startZ, x0, z0);
  }

  /** An all-zero `dimx` by `dimz` field. */
  function FlatField(dimx: nat, dimz: nat): (hm: Field)
    ensures WellFormed(hm, dimx, dimz)
    ensures forall x, z | 0 <= x < dimx && 0 <= z < dimz :: hm[x][z] == 0
  {
    seq(dimx, _ => seq(dimz, _ => 0))
  }

  /** A concrete instance: a flat 256 by 256 field at sea level 0 with 64-unit
      cells and the landmark enabled. Whatever grid and field create_chunk_op
      returns, the centre cell claims a maximum height of 1 over a plateau of
      height 50. */
  lemma AsWrittenCentreStaleExample(g: Grid, hm': Field)
    requires var cfg := Config(64, 1, 256, 256, 0);
      && Tiled(g, cfg)
      && FieldAfter(cfg, true, FlatField(256, 256), hm')
      && CellsFrom(g, cfg, AsWrittenField(cfg, true, FlatField(256, 256), hm'))
    ensures CellAt(g, 2, 2).maxY == 1
    ensures hm'[128][128] == 50
    ensures !RangesBound(g, Config(64, 1, 256, 256, 0), hm')
  {
    var cfg := Config(64, 1, 256, 256, 0);
    var hm := FlatField(256, 256);
    assert NRow(cfg) == 4 && NCol(cfg) == 4;
    AsWrittenCentreStale(g, cfg, true, hm, hm');
    assert AsWrittenField(cfg, true, hm, hm')(2, 2) == hm;
    VerticalRangeSpec(cfg, hm, 128, 128);
  }
}
