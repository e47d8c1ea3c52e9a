# Terrain chunk grid, streaming window and collision layers

A Dafny model of two sequential cores of a small OpenGL terrain demo.

**The terrain chunk grid** (`src/core/chunk.c`) has two parts.

- *Grid construction* (`create_chunk_op`, `set_chunk_info_z`) cuts a `dimx` by `dimz` height-field into square cells of `chunk_size` samples, stored in x-major order.
  - Each cell records its integer origin and a horizontal box padded by one unit on every side.
  - Each cell also records a vertical range: the minimum and maximum sample, with the maximum raised to sea level + 1.
  - When the decorative landmark is enabled, a level plateau of height 50 is stamped into the field around the centre cell.
- *The visibility tracker* (`update_chunk_op`, `inarray`) runs once per frame.
  - It reaps the batches whose remove animation has finished.
  - It returns early while the camera stays inside the previous cell.
  - Otherwise it finds the camera's cell: first the column, then the cell in that column.
  - It computes the `(2r+1)^2` window of cell ids around that cell.
  - It appends the ids entering the window to the active batch list and the ids leaving it to the pending-removal list.
  - It commits the new window.

**The collision-layer tables** (`src/core/jolt_physics.cpp`) cover:

- the object-layer to broad-phase-layer map of `BPLayerInterfaceImpl`;
- the two `ShouldCollide` filters the physics engine consults.

Modules, one per component:

| file | module | contents |
|---|---|---|
| `arith.dfy` | `Arith` | multiplication and division facts for flat indices, and ceiling division |
| `sequences.dfy` | `Sequences` | `Option`, order-preserving `Filter`, first-match removal, `Flatten`, `Distinct` |
| `heightfield.dfy` | `HeightField` | the height-field and the plateau stamp |
| `chunks.dfy` | `Chunks` | `Config`, `Box`, `ChunkInfo`, the padded box and `set_chunk_info_z` |
| `grid.dfy` | `ChunkGrid` | the construction loop of `create_chunk_op`, as written and corrected |
| `tracker.dfy` | `Tracker` | `inarray` and `update_chunk_op`: reap, fast path, search, window, diff, commit |
| `tracker_props.dfy` | `TrackerProps` | window shape, the two-phase search on a tiled grid, repeated calls |
| `tracker_inv.dfy` | `TrackerInvariant` | the bookkeeping invariant that keeps the reap lookup defined |
| `layers.dfy` | `CollisionLayers` | the layer constants, the layer map and the two filters |

Modelling choices:

- Batches are identified with chunk ids (`allbatch[i]->chunk_id == i`). So `batch` and `delete_ids` are both lists of ids (`seq<int>`).
- "Is this batch still animating" (`has_animation_br_manager`) is an oracle `animating: int -> bool`, fixed during one call.
- The process-wide flag `gsu_can_exist` is an input to grid construction (`priorFlag`), and its new value is returned.
- The camera position is a pair of `real`s. Box corners are integers; the source stores them as floats of small integers, which is exact.
- The three dynamic-array helpers are not part of this model. `get_index_DA` is taken as a first-match lookup, `remove_DA` as an order-preserving removal, and `pushback_DA` as an append.

Behaviour worth noting:

- The reap loop runs on every call, before the fast-path test (lines 208-230).
- The active list can hold an id twice, for two reasons:
  - an id whose remove animation is still running gets a second entry when its cell re-enters the window (`TrackerInvariant.ReentryDuplicates`);
  - a window wider than a row of cells names a cell twice (`TrackerProps.WindowDuplicates`).
- Window slots are computed with the row count `chunknumberinrow` as the stride, while cells are laid out with the column count as the stride.
  - The window is therefore the square of neighbouring cells only on square grids (`TrackerProps.WindowStrideIsRowCount`, `TrackerProps.WindowCoversNeighbours`).
  - At the grid's edges the window wraps into the neighbouring column (`TrackerProps.WindowWrapsAtEdge`).

## Model

| member | source | states |
|---|---|---|
| `Arith.CeilDiv` | src/core/chunk.c:59-60 | the cell count along an axis is the least count whose cells cover the axis: `q * cs >= dim` and `(q - 1) * cs < dim` |
| `HeightField.StampPlateau` | src/core/chunk.c:85-91 | the stamp writes height 50 on exactly `[x0-32, x0+96) x [z0-16, z0+48)` around the centre origin and leaves every other sample unchanged; the rectangle must fit in the field |
| `Chunks.ScanDepthSpec` | src/core/chunk.c:22-32 | the inner scan bounds every sample of its row segment, and each end is its starting value or one of those samples |
| `Chunks.ScanWidthSpec` | src/core/chunk.c:20-33 | the double scan bounds every sample of the rectangle, and each end is its starting value or a sample of the rectangle |
| `Chunks.VerticalRange` | src/core/chunk.c:34-38 | the maximum is at least `(int)sealevel + 1`, and the minimum never exceeds the starting sentinel 10000 |
| `Chunks.VerticalRangeSpec` | src/core/chunk.c:16-39 | `minY <= h <= maxY` for every sample `h` of the cell clipped to the field; `minY` is 10000 or a sample, and `maxY` is sea level + 1, -10000 or a sample |
| `ChunkGrid.LandmarkEnabled` | src/core/chunk.c:44-47 | the flag is never cleared. It is set whenever `dimx > 128`, `dimz > 64` and a model is loaded, and it is newly set only then |
| `ChunkGrid.ColumnsTile` | src/core/chunk.c:62-80 | pushing the columns one after the other puts cell `(i, i2)` at index `i * ncol + i2`, with origin `(i*cs, i2*cs)` and the padded box |
| `ChunkGrid.ScanCells` | src/core/chunk.c:64-80 | the inner loop pushes, in order, the record of each cell of a column range |
| `ChunkGrid.ScanCentreColumn` | src/core/chunk.c:64-92 | in the centre column, cells up to the centre read the unstamped field, the plateau is stamped, and later cells read the stamped field |
| `ChunkGrid.CreateGrid` | src/core/chunk.c:44-95 | the grid is tiled and every cell is built from the field it was scanned on. The field is stamped exactly when the flag is set and the grid is non-empty, and `centerchunkid` indexes cell `(nrow/2, ncol/2)` |
| `ChunkGrid.LayOutCells` | src/core/chunk.c:62-80 | without a stamp, every cell is built from the one field and the grid is tiled |
| `ChunkGrid.CreateGridStampFirst` | src/core/chunk.c:81-92 | corrected construction: with the plateau stamped before any cell is scanned, every cell's vertical range bounds every sample of the final field it covers |
| `ChunkGrid.SameFieldRangesBound` | src/core/chunk.c:16-39 | cells all scanned on one field have vertical ranges that bound that field |
| `ChunkGrid.CellRangeBounds` | src/core/chunk.c:16-39 | one cell's vertical range bounds each sample it covers |
| `ChunkGrid.NeighbourBoxesOverlap` | src/core/chunk.c:71-79 | neighbouring boxes overlap by exactly 2 units along the axis they are neighbours on and share their extent along the other axis |
| `ChunkGrid.SampleOwner` | src/core/chunk.c:62-75 | every sample of the field is scanned by cell `(x / cs, z / cs)` |
| `ChunkGrid.OnlyOwner` | src/core/chunk.c:62-75 | no other cell scans that sample |
| `ChunkGrid.CentreIndexAt` | src/core/chunk.c:81-83 | `centerchunkid` is in range and names cell `(nrow/2, ncol/2)`, whose origin is the point the plateau is stamped relative to |
| `ChunkGrid.AsWrittenCentreStale` | src/core/chunk.c:75-92 | as written, when the plateau rises above the centre cell's samples and above sea level + 1, the centre cell's `maxY` lies below the plateau height at its own origin, so the ranges do not bound the field |
| `ChunkGrid.AsWrittenCentreStaleExample` | src/core/chunk.c:75-92 | on a flat 256 by 256 field with 64-unit cells, the centre cell claims `maxY == 1` over a plateau of height 50 |
| `Tracker.RemoveEach` | src/core/chunk.c:217 | each id removes one matching entry of `batch`: the result is `multiset(batch) - multiset(ids)` |
| `Tracker.Reap` | src/core/chunk.c:210-221 | the finished entries leave `delete_ids` and take one matching batch entry each; every entry left in `delete_ids` is still animating |
| `Tracker.ReapCount` | src/core/chunk.c:210-221 | per id, reaping removes as many copies from `batch` as from `delete_ids`: all the copies if the id has finished, none otherwise |
| `Tracker.ReapShrinks` | src/core/chunk.c:210-221 | reaping only removes entries from both lists |
| `Tracker.ReapLoop` | src/core/chunk.c:209-221 | the scan-and-restart loop (`goto remove`) computes exactly `Reap` |
| `Tracker.ReapScanStep` | src/core/chunk.c:212-220 | one pass of the loop body either skips an animating entry or removes a finished one, and keeps what is left to reap |
| `Tracker.InArray` | src/core/chunk.c:194-204 | `inarray` answers exactly whether `x` occurs in the array |
| `Tracker.FindColumn` | src/core/chunk.c:235-244 | the result is the first column whose first cell's minimum corner and last cell's maximum corner bound the camera, or none when no column matches |
| `Tracker.FindCell` | src/core/chunk.c:249-257 | the result is the first cell of the column whose box holds the camera, or none when no cell does |
| `Tracker.ComputeWindow` | src/core/chunk.c:259-271 | the nested loop fills slot `i*(2r+1)+i2` with `current_id - (r-i) - (r-i2)*chunknumberinrow`; there are `(2r+1)^2` slots |
| `Tracker.WindowEntry` | src/core/chunk.c:260-271 | the window holds that id at each of its `(2r+1)^2` slots |
| `Tracker.WindowLength` | src/core/chunk.c:61 | the window has `renderedchunkcount = (2r+1)^2` slots |
| `Tracker.Refresh` | src/core/chunk.c:335-344 | the commit: `previous_chunkid` becomes the located id and `previous_ids` the new window |
| `Tracker.RefreshSpec` | src/core/chunk.c:274-344 | `batch` gains exactly the in-range window ids the previous window lacked (all of them on the first update). `delete_ids` gains exactly the in-range previous ids the new window lacks. Earlier entries of both lists stay in place. The new entries keep slot order: those of `batch` are a subsequence of the new window, those of `delete_ids` a subsequence of the previous one |
| `Tracker.RefreshCounts` | src/core/chunk.c:274-333 | the same diff counted per id, with multiplicities |
| `Tracker.Locate` | src/core/chunk.c:232-257 | the id the search settles on is the previous id or an index of a cell |
| `Tracker.Update` | src/core/chunk.c:206-345 | after every call `previous_chunkid` is -1 or the index of a cell |
| `Tracker.UpdateSpec` | src/core/chunk.c:206-345 | every call reaps first. On the fast path, or when no column matches, the call only reaps. Otherwise it refreshes at the first cell of the first matching column whose box holds the camera, or at the previous id when that column has none |
| `TrackerProps.WindowDistinct` | src/core/chunk.c:260-271 | with `2r+1 <= chunknumberinrow`, the window holds no id twice |
| `TrackerProps.WindowDuplicates` | src/core/chunk.c:260-271 | with `1 <= chunknumberinrow < 2r+1`, the window holds some id twice |
| `TrackerProps.WindowSlotCell` | src/core/chunk.c:266-267 | on a square grid, window slot `(i, i2)` around cell `(cx, cz)` is cell `(cx+i2-r, cz+i-r)` |
| `TrackerProps.WindowCoversNeighbours` | src/core/chunk.c:260-271 | on a square grid the window names every cell within `r` columns and `r` rows of the centre |
| `TrackerProps.WindowWrapsAtEdge` | src/core/chunk.c:266-267 | whatever the window's row stride, slot `(r-1, r)` around the first cell `(cx, 0)` of a column is `(cx-1, ncol-1)`, the far end of the previous column |
| `TrackerProps.WindowStrideIsRowCount` | src/core/chunk.c:266-267 | the slot one row over is `current_id + chunknumberinrow`, which is the neighbouring column's cell only when the grid is square |
| `TrackerProps.CellInColumn` | src/core/chunk.c:249-257 | within a column of a tiled grid the padded boxes leave no gap along z |
| `TrackerProps.ColumnMatchFindsCell` | src/core/chunk.c:235-257 | on a tiled grid a column match guarantees that the cell scan finds a cell |
| `TrackerProps.UpdateLocatesCell` | src/core/chunk.c:232-257 | on a tiled grid a call that takes neither exit commits the first cell of the first matching column whose box holds the camera |
| `TrackerProps.UpdateRepeat` | src/core/chunk.c:224-230 | on a tiled grid, a second call at the same position keeps the window state and adds nothing to either list |
| `TrackerProps.SecondCallExits` | src/core/chunk.c:224-257 | after a call on a tiled grid, a call at the same position takes the fast path or finds no column |
| `TrackerProps.CommittedCellIsFast` | src/core/chunk.c:224-230 | a committed cell whose box holds the camera gives the fast path |
| `TrackerProps.ExitAddsNothing` | src/core/chunk.c:224-248 | a call that takes an exit keeps the window state and only removes entries |
| `TrackerProps.ExitIsReaped` | src/core/chunk.c:224-248 | a call that takes an exit leaves the tracker exactly as the reap loop left it |
| `TrackerProps.CommittedCell` | src/core/chunk.c:232-344 | on a tiled grid a call that takes neither exit refreshes the reaped tracker at a cell of the grid |
| `TrackerProps.LocateFindsCell` | src/core/chunk.c:235-257 | on a tiled grid a column match locates an index of the cell list |
| `TrackerInvariant.InitialInv` | src/core/chunk.c:165-167 | the tracker `create_chunk_op` leaves satisfies the bookkeeping invariant |
| `TrackerInvariant.InvReapDefined` | src/core/chunk.c:217 | under the invariant, the batch lookup of every finished pending id succeeds |
| `TrackerInvariant.ReapKeepsInv` | src/core/chunk.c:210-221 | reaping keeps the invariant |
| `TrackerInvariant.RefreshKeepsInv` | src/core/chunk.c:274-344 | a refresh keeps the invariant when the window fits in a row |
| `TrackerInvariant.UpdateKeepsInv` | src/core/chunk.c:206-345 | every call on a tiled grid with `2r+1 <= chunknumberinrow` keeps the invariant, so `multiset(delete_ids) <= multiset(batch)` holds forever |
| `TrackerInvariant.AsWrittenReapUndefinedExample` | src/core/chunk.c:209-344 | on a 2 by 11 grid with range 1, located calls at cells 0, 1 and 10 leave id 2 twice in `delete_ids` but once in `batch`, so the reap lookup fails once its animations end |
| `TrackerInvariant.ReentryDuplicates` | src/core/chunk.c:274-285 | an id still animating out that re-enters the window ends up in `batch` at least twice |
| `CollisionLayers.LayerTable` | src/core/jolt_physics.cpp:64-69 | the constructor maps NON_MOVING to broad-phase 0 and MOVING to broad-phase 1 |
| `CollisionLayers.GetNumBroadPhaseLayers` | src/core/jolt_physics.cpp:71-74 | every table entry is below the broad-phase layer count 2 |
| `CollisionLayers.GetBroadPhaseLayer` | src/core/jolt_physics.cpp:76-80 | a valid object layer maps to the broad-phase layer of the same number, below the count |
| `CollisionLayers.BroadPhaseLayerName` | src/core/jolt_physics.cpp:82-96 | layer 0 is named `NON_MOVING` and layer 1 `MOVING`; a broad-phase layer has a proper name exactly when it is below the count |
| `CollisionLayers.LayerNamesDistinct` | src/core/jolt_physics.cpp:82-96 | a layer below the count is the only one carrying its name |
| `CollisionLayers.ObjectVsBroadPhaseShouldCollide` | src/core/jolt_physics.cpp:106-118 | a moving object is tested against every tree, and an unknown object layer against none |
| `CollisionLayers.ObjectPairShouldCollide` | src/core/jolt_physics.cpp:125-137 | a moving body collides with any layer, and an unknown first layer with none |
| `CollisionLayers.LayerMapInjective` | src/core/jolt_physics.cpp:64-80 | distinct valid object layers map to distinct broad-phase layers |
| `CollisionLayers.ObjectLayerOf` | src/core/jolt_physics.cpp:64-80 | every broad-phase layer is the image of a valid object layer, so the map is a one-to-one correspondence |
| `CollisionLayers.PairSymmetric` | src/core/jolt_physics.cpp:125-137 | on valid layers the pair filter is symmetric |
| `CollisionLayers.PairAsymmetricOnUnknownLayer` | src/core/jolt_physics.cpp:125-137 | past the asserts, `(MOVING, 2)` collides but `(2, MOVING)` does not |
| `CollisionLayers.OnlyStaticPairSkipped` | src/core/jolt_physics.cpp:125-137 | among valid layers, `(NON_MOVING, NON_MOVING)` is the only pair that does not collide |
| `CollisionLayers.FilterConsistency` | src/core/jolt_physics.cpp:106-137 | testing an object against the tree of layer `l2` agrees with testing it against a body of layer `l2` |

## Left out

- Batch geometry builders and the shared `done` scratch grid (src/core/chunk.c:97-130, 159-163): their effects are not visible to the tracker.
- Landmark mesh loading, scaling and translation (src/core/chunk.c:133-153): float arithmetic over an external importer.
- Animation side effects (matrix resets, `add_animation_translate_br_manager`): they belong to the external animator. Whether an animation has finished is the `animating` oracle.
- `use_chunk_op` frustum and distance culling, the triangle counters and `delete_chunk_op`: these are rendering, statistics and memory release.
- Everything else in `jolt_physics.cpp`: initialisation, stepping and body management over the physics library and its thread pool. The `run.py` launcher and `src/main.c` render loop are not part of this model either.
- Float arithmetic: `ceilf((float)dimx / cs)` is modelled as exact ceiling division, `(int)sealevel` as an integer input, and the camera position as reals.
- The window arithmetic of lines 266-267 mixes `unsigned` and `int`. It is modelled on unbounded integers, assuming no 32-bit overflow.
- `current_ids` is uninitialised until the first window is computed. It is modelled as empty.
- The dynamic-array helpers `get_index_DA`, `remove_DA` and `pushback_DA` are not in the source. They are modelled as first-match lookup, order-preserving removal and append.
- `Tracker.Reap` and `Tracker.Update` require that every finished pending id has an entry in `batch`. Without one, the source calls `remove_DA` with a failed lookup, whose behaviour is not in the source. The case is reachable when the window is wider than a row of cells (`TrackerInvariant.AsWrittenReapUndefinedExample`, listed under Findings). `TrackerInvariant.UpdateKeepsInv` shows that the requirement always holds on a tiled grid whose window fits in a row.
- `Tracker.Update` requires that a grid with columns has cells in them: the column scan reads the first and last cell of each column.
- `ChunkGrid.CreateGrid`, `ChunkGrid.CreateGridStampFirst` and `HeightField.StampPlateau` require the plateau rectangle to fit in the field. The source tests only `dimx > 128 && dimz > 64` at line 44 and writes lines 85-91 without bounds checks: with `dimx = dimz = 129` and `chunk_size = 200` the centre origin is `(0, 0)`, and the first write lands at `hm[-32]`. That out-of-range write is undefined behaviour and is excluded from the model.
- `CollisionLayers.GetBroadPhaseLayer` requires a valid layer, which is the `JPH_ASSERT` of line 78; past it the table read would be out of bounds. The two filters model the release build, where the assert is off and an unknown layer returns `false`.
- When a column matches but no cell of it holds the camera, the source commits the previous id. If that id is -1, `previous_ids` is set while `previous_chunkid` stays -1. `Tracker.UpdateSpec` models this as written. The invariant lemmas assume a tiled grid, where `TrackerProps.ColumnMatchFindsCell` rules the case out.

## Findings

| source | as written | input that shows it | evidently intended | confidence | as-written member | corrected member |
|---|---|---|---|---|---|---|
| src/core/chunk.c:75-92 | The centre cell's vertical range is computed (line 75) before the plateau is stamped (lines 85-91), and so are those of all earlier cells. The range misses the plateau of height 50. | A flat 256 by 256 field at sea level 0, 64-unit cells, landmark enabled: cell (2, 2) gets `maxY == 1` while the sample at its origin becomes 50 | stamp the plateau before scanning, so that every cell's range bounds the drawn terrain | not executed | `ChunkGrid.AsWrittenCentreStaleExample` | `ChunkGrid.CreateGridStampFirst` |
| src/core/chunk.c:209-344 | With `2*chunk_range+1 > chunknumberinrow` the window names a cell more than once. An id enters `batch` once per copy in the window it first appears in, but leaves through `delete_ids` once per copy in the last window holding it. So `delete_ids` can hold an id more often than `batch`, and the lookup at line 217 then fails. | Any 2 by 11 grid, range 1, every animation running, camera located in cells 0, then 1, then 10: id 2 is twice in `delete_ids` and once in `batch` | every pending removal has its own batch entry, which holds when the window fits in a row | not executed | `TrackerInvariant.AsWrittenReapUndefinedExample` | `TrackerInvariant.UpdateKeepsInv` |
