/** Properties of the visibility tracker across calls: the shape of the window,
    the two-phase search on a tiled grid, repeated calls, and the invariant that
    keeps the batch lookup of the reap loop (src/core/chunk.c:217) defined. */
module TrackerProps {
  import opened Arith
  import opened Sequences
  import opened Chunks
  import opened ChunkGrid
  import opened Tracker

  // ------------------------------------------------------------ the window

  /** With at most `stride` slots per window row the window holds no id twice. */
  lemma WindowDistinct(cid: int, r: nat, stride: nat)
    requires 2 * r + 1 <= stride
    ensures Distinct(Window(cid, r, stride))
  {
    var n := 2 * r + 1;
    var w := Window(cid, r, stride);
    WindowEntry(cid, r, stride);
    forall k1, k2 | 0 <= k1 < k2 < |w|
      ensures w[k1] != w[k2]
    {
      var i1, j1 := SlotOf(k1, n);
      var i2, j2 := SlotOf(k2, n);
      WindowAt(cid, r, stride, i1, j1);
      WindowAt(cid, r, stride, i2, j2);
      SlotsDiffer(cid, r, stride, i1, j1, i2, j2);
    }
  }

  /** Distinct slots of a window no wider than `stride` hold distinct ids. */
  lemma SlotsDiffer(cid: int, r: nat, stride: nat, i1: nat, j1: nat, i2: nat, j2: nat)
    requires 2 * r + 1 <= stride
    requires i1 < 2 * r + 1 && i2 < 2 * r + 1
    requires i1 != i2 || j1 != j2
    ensures WindowId(cid, r, stride, i1, j1) != WindowId(cid, r, stride, i2, j2)
  {
    if WindowId(cid, r, stride, i1, j1) == WindowId(cid, r, stride, i2, j2) {
      assert i1 + j1 * stride == i2 + j2 * stride;
      StrideInjective(i1, j1, i2, j2, stride);
    }
  }

  /** With more window slots per row than cells per row (`2r + 1 > chunknumberinrow`)
      slot `(nrow, 0)` repeats slot `(0, 1)`: the window names a cell twice. */
  lemma WindowDuplicates(cid: int, r: nat, stride: nat)
    requires 1 <= stride < 2 * r + 1
    ensures !Distinct(Window(cid, r, stride))
  {
    var n := 2 * r + 1;
    var w := Window(cid, r, stride);
    WindowEntry(cid, r, stride);
    assert w[stride * n] == WindowId(cid, r, stride, stride, 0);
    assert w[1] == WindowId(cid, r, stride, 0, 1) by {
      assert 0 * n + 1 == 1;
    }
    assert 1 < stride * n by {
      MulMonotone(1, stride, n);
    }
  }

  /** On a square grid the window slot `(i, i2)` around cell `(cx, cz)` is cell
      `(cx + i2 - r, cz + i - r)`. */
  lemma WindowSlotCell(cx: int, cz: int, ncol: nat, r: nat, i: nat, i2: nat)
    ensures WindowId(cx * ncol + cz, r, ncol, i, i2) == (cx + i2 - r) * ncol + (cz + i - r)
  {
    assert (cx + i2 - r) * ncol == cx * ncol - (r - i2) * ncol;
  }

  /** On a square grid the window around cell `(cx, cz)` names every cell
      `(a, b)` within `r` columns and `r` rows of it. */
  lemma WindowCoversNeighbours(g: Grid, cx: nat, cz: nat, a: nat, b: nat)
    requires Shaped(g) && g.nrow == g.ncol
    requires cx < g.nrow && cz < g.ncol && a < g.nrow && b < g.ncol
    requires cx - g.range <= a <= cx + g.range && cz - g.range <= b <= cz + g.range
    ensures a * g.ncol + b in Window(cx * g.ncol + cz, g.range, g.nrow)
  {
    var r := g.range;
    var i, i2 := b - cz + r, a - cx + r;
    var n := g.ncol;
    assert g.nrow == n;
    WindowAt(cx * n + cz, r, n, i, i2);
    WindowSlotCell(cx, cz, n, r, i, i2);
    assert cx + i2 - r == a && cz + i - r == b;
  }

  /** At the low-z edge the window wraps: whatever the window's row stride
      (`chunknumberinrow` in `Update`), slot `(r - 1, r)` around cell `(cx, 0)`
      of a layout with `ncol` cells per column holds `(cx - 1, ncol - 1)`, the
      far end of the previous column. */
  lemma WindowWrapsAtEdge(cx: nat, ncol: nat, stride: nat, r: nat)
    requires r >= 1
    ensures WindowId(cx * ncol, r, stride, r - 1, r) == (cx - 1) * ncol + (ncol - 1)
  {
  }

  /** As written the window steps by `chunknumberinrow` between its rows while
      the layout steps by `chunknumberincolumn` between columns: slot `(r, r + 1)`
      is `cid + nrow`, the neighbouring column's cell only when `nrow == ncol`. */
  lemma WindowStrideIsRowCount(cid: int, r: nat, nrow: nat)
    requires r >= 1
    ensures r * (2 * r + 1) + r + 1 < |Window(cid, r, nrow)|
    ensures Window(cid, r, nrow)[r * (2 * r + 1) + r + 1] == cid + nrow
  {
    WindowEntry(cid, r, nrow);
    IndexInGrid(r, r + 1, 2 * r + 1, 2 * r + 1);
    assert WindowId(cid, r, nrow, r, r + 1) == cid + nrow;
  }

  // ------------------------------------------------ the search on a tiled grid

  /** Within a column of a tiled grid the boxes are stacked along z with
      overlaps: if the camera is level with the column and not below cell
      `j`, while not above the last cell, some cell from `j` on holds it. */
  lemma {:induction false} CellInColumn(g: Grid, cfg: Config, c: nat, p: Position, j: nat)
    requires Tiled(g, cfg) && c < g.nrow && j < g.ncol
    requires CellAt(g, c, 0).box.minX as real <= p.x <= CellAt(g, c, 0).box.maxX as real
    requires CellAt(g, c, j).box.minZ as real <= p.z <= CellAt(g, c, g.ncol - 1).box.maxZ as real
    ensures exists i2 :: j <= i2 < g.ncol && Contains(CellAt(g, c, i2).box, p)
    decreases g.ncol - j
  {
    assert CellAt(g, c, j).box.minX == CellAt(g, c, 0).box.minX;
    assert CellAt(g, c, j).box.maxX == CellAt(g, c, 0).box.maxX;
    if p.z <= CellAt(g, c, j).box.maxZ as real {
      assert Contains(CellAt(g, c, j).box, p);
    } else {
      assert j + 1 < g.ncol;
      NeighbourBoxesOverlap(g, cfg, c, j);
      CellInColumn(g, cfg, c, p, j + 1);
    }
  }

  /** A column match (lines 237-238) guarantees the cell scan (lines 249-257)
      finds a cell whose box holds the camera: the padded boxes of a column
      leave no gap. */
  lemma ColumnMatchFindsCell(g: Grid, cfg: Config, c: nat, p: Position)
    requires Tiled(g, cfg) && c < g.nrow && g.ncol > 0
    requires ColumnMatches(g, c, p)
    ensures FindCell(g, c, p, 0).Some?
  {
    assert CellAt(g, c, g.ncol - 1).box.maxX == CellAt(g, c, 0).box.maxX;
    CellInColumn(g, cfg, c, p, 0);
  }

  /** On a tiled grid a call that takes neither exit commits a cell whose box
      holds the camera: the first such cell of the first matching column. */
  lemma UpdateLocatesCell(g: Grid, cfg: Config, t: Tracker, p: Position, animating: int -> bool)
    requires Tiled(g, cfg) && Trackable(g) && ValidPrev(g, t)
    requires ReapDefined(t.batch, t.deleteIds, animating)
    requires !FastPath(g, t, p) && FindColumn(g, p, 0).Some?
    ensures var t' := Update(g, t, p, animating);
      var c := FindColumn(g, p, 0).value;
      exists i2 :: 0 <= i2 < g.ncol && t'.previousChunkId == c * g.ncol + i2 &&
        Contains(CellAt(g, c, i2).box, p) &&
        forall j :: 0 <= j < i2 ==> !Contains(CellAt(g, c, j).box, p)
  {
    var c := FindColumn(g, p, 0).value;
    ColumnMatchFindsCell(g, cfg, c, p);
    UpdateSpec(g, t, p, animating);
    var i2 := FindCell(g, c, p, 0).value;
    assert Update(g, t, p, animating).previousChunkId == c * g.ncol + i2;
  }

  /** A repeated call at the same position on a tiled grid commits nothing new
      and adds nothing: the window state stays, and `batch` and `deleteIds`
      can only lose reaped entries. */
  lemma UpdateRepeat(g: Grid, cfg: Config, t: Tracker, p: Position, a1: int -> bool, a2: int -> bool)
    requires Tiled(g, cfg) && Trackable(g) && ValidPrev(g, t)
    requires ReapDefined(t.batch, t.deleteIds, a1)
    requires ReapDefined(Update(g, t, p, a1).batch, Update(g, t, p, a1).deleteIds, a2)
    ensures var t1 := Update(g, t, p, a1);
      var t2 := Update(g, t1, p, a2);
      && SameWindow(t1, t2)
      && multiset(t2.batch) <= multiset(t1.batch)
      && multiset(t2.deleteIds) <= multiset(t1.deleteIds)
  {
    SecondCallExits(g, cfg, t, p, a1);
    ExitAddsNothing(g, Update(g, t, p, a1), p, a2);
  }

  /** After a call on a tiled grid, a call at the same position takes one of the two exits. */
  lemma SecondCallExits(g: Grid, cfg: Config, t: Tracker, p: Position, a1: int -> bool)
    requires Tiled(g, cfg) && Trackable(g) && ValidPrev(g, t)
    requires ReapDefined(t.batch, t.deleteIds, a1)
    ensures FastPath(g, Update(g, t, p, a1), p) || FindColumn(g, p, 0).None?
  {
    UpdateSpec(g, t, p, a1);
    if !FastPath(g, t, p) && FindColumn(g, p, 0).Some? {
      var c := FindColumn(g, p, 0).value;
      ColumnMatchFindsCell(g, cfg, c, p);
      var i2 := FindCell(g, c, p, 0).value;
      CommittedCellIsFast(g, Update(g, t, p, a1), p, c, i2);
    }
  }

  /** A tracker whose committed id is a cell whose box holds the camera takes the fast path. */
  lemma CommittedCellIsFast(g: Grid, t: Tracker, p: Position, c: nat, i2: nat)
    requires Shaped(g) && ValidPrev(g, t) && c < g.nrow && i2 < g.ncol
    requires t.previousChunkId == c * g.ncol + i2 && Contains(CellAt(g, c, i2).box, p)
    ensures FastPath(g, t, p)
  {
    IndexInGrid(c, i2, g.nrow, g.ncol);
  }

  /** A call that takes one of the two exits keeps the window state and only reaps. */
  lemma ExitAddsNothing(g: Grid, t: Tracker, p: Position, animating: int -> bool)
    requires Trackable(g) && ValidPrev(g, t)
    requires ReapDefined(t.batch, t.deleteIds, animating)
    requires FastPath(g, t, p) || FindColumn(g, p, 0).None?
    ensures var t' := Update(g, t, p, animating);
      && SameWindow(t, t')
      && multiset(t'.batch) <= multiset(t.batch)
      && multiset(t'.deleteIds) <= multiset(t.deleteIds)
  {
    ExitIsReaped(g, t, p, animating);
    ReapShrinks(t.batch, t.deleteIds, animating);
  }

  /** On a tiled grid a call that takes neither exit refreshes the reaped
      tracker at a cell of the grid. */
  lemma CommittedCell(g: Grid, cfg: Config, t: Tracker, p: Position, animating: int -> bool)
    returns (cid: int)
    requires Tiled(g, cfg) && Trackable(g) && ValidPrev(g, t)
    requires ReapDefined(t.batch, t.deleteIds, animating)
    requires !FastPath(g, t, p) && FindColumn(g, p, 0).Some?
    ensures 0 <= cid < |g.cells|
    ensures Update(g, t, p, animating) == Refresh(g, Reaped(t, animating), cid)
  {
    cid := LocateFindsCell(g, cfg, t, p);
    UpdateRefreshes(g, t, p, animating, cid);
  }

  /** On a tiled grid a column match locates a cell of the grid. */
  lemma LocateFindsCell(g: Grid, cfg: Config, t: Tracker, p: Position) returns (cid: int)
    requires Tiled(g, cfg) && Trackable(g) && ValidPrev(g, t)
    requires FindColumn(g, p, 0).Some?
    ensures 0 <= cid < |g.cells| && Locate(g, t, p) == Some(cid)
  {
    var c := FindColumn(g, p, 0).value;
    ColumnMatchFindsCell(g, cfg, c, p);
    var i2 := FindCell(g, c, p, 0).value;
    cid := c * g.ncol + i2;
    CellIndexInRange(g, c, i2);
    assert FindColumn(g, p, 0) == Some(c) && FindCell(g, c, p, 0) == Some(i2);
  }

  /** A call that misses the fast path and locates `cid` refreshes the reaped tracker there. */
  lemma UpdateRefreshes(g: Grid, t: Tracker, p: Position, animating: int -> bool, cid: int)
    requires Trackable(g) && ValidPrev(g, t)
    requires ReapDefined(t.batch, t.deleteIds, animating)
    requires !FastPath(g, t, p) && Locate(g, t, p) == Some(cid)
    ensures Update(g, t, p, animating) == Refresh(g, Reaped(t, animating), cid)
  {
  }

  /** A call that takes one of the exits leaves the tracker as the reap loop left it. */
  lemma ExitIsReaped(g: Grid, t: Tracker, p: Position, animating: int -> bool)
    requires Trackable(g) && ValidPrev(g, t)
    requires ReapDefined(t.batch, t.deleteIds, animating)
    requires FastPath(g, t, p) || FindColumn(g, p, 0).None?
    ensures Update(g, t, p, animating) == Reaped(t, animating)
  {
    UpdateSpec(g, t, p, animating);
  }
}
