/** The incremental visibility tracker (`update_chunk_op` and `inarray`,
    src/core/chunk.c:194-345): each call reaps the batches whose remove
    animation has finished, and unless the camera is still inside the previous
    cell, locates the camera's cell, computes the window of cell ids around it,
    diffs it against the previous window and commits it.

    A batch is identified with its chunk id (`allbatch[i]->chunk_id == i`),
    so the active list `batch` and the pending removals `deleteIds` are id lists. */
module Tracker {
  import opened Arith
  import opened Sequences
  import opened Chunks
  import opened ChunkGrid

  /** Camera position in the horizontal plane: `pos[0]` and `pos[2]`. */
  datatype Position = Position(x: real, z: real)

  /** The mutable part of `chunk_op` the tracker owns. `previousIds` is `None`
      while `previous_ids` is null; `currentIds` is the last
      computed window. */
  datatype Tracker = Tracker(
    batch: seq<int>,
    deleteIds: seq<int>,
    previousChunkId: int,
    previousIds: Option<seq<int>>,
    currentIds: seq<int>)

  /** The tracker as create_chunk_op leaves it (lines 58, 165-167). */
  function NewTracker(): Tracker
  {
    Tracker([], [], -1, None, [])
  }

  /** `previous_chunkid` is -1 or indexes a cell. */
  predicate ValidPrev(g: Grid, t: Tracker)
  {
    t.previousChunkId == -1 || 0 <= t.previousChunkId < |g.cells|
  }

  // ---------------------------------------------------------------- reaping

  /** Pending removals whose animation has finished. */
  function Finished(pending: seq<int>, animating: int -> bool): seq<int>
  {
    Filter(pending, Not(animating))
  }

  /** Line 217 looks up every finished id in `batch`; the lookup must succeed. */
  predicate ReapDefined(batch: seq<int>, pending: seq<int>, animating: int -> bool)
  {
    multiset(Finished(pending, animating)) <= multiset(batch)
  }

  /** Removes the first occurrence of each id of `ids` from `batch`, in order. */
  function RemoveEach(batch: seq<int>, ids: seq<int>): (r: seq<int>)
    requires multiset(ids) <= multiset(batch)
    ensures multiset(r) == multiset(batch) - multiset(ids)
    decreases |ids|
  {
    if ids == [] then batch
    else
      assert ids == [ids[0]] + ids[1..];
      assert ids[0] in multiset(ids);
      RemoveEach(RemoveFirst(batch, ids[0]), ids[1..])
  }

  /** The effect of the reap loop (lines 210-221): the finished entries leave
      `deleteIds`, each taking one matching entry of `batch` with it. */
  function Reap(batch: seq<int>, pending: seq<int>, animating: int -> bool): (r: (seq<int>, seq<int>))
    requires ReapDefined(batch, pending, animating)
    ensures multiset(r.0) == multiset(batch) - multiset(Finished(pending, animating))
    ensures forall id :: id in r.1 ==> animating(id)
    ensures forall id :: multiset(r.1)[id] == if animating(id) then multiset(pending)[id] else 0
  {
    FilterCount(pending, animating);
    (RemoveEach(batch, Finished(pending, animating)), Filter(pending, animating))
  }

  /** Per id: reaping takes the finished copies of an id out of `deleteIds`
      and as many copies out of `batch`. */
  lemma ReapCount(batch: seq<int>, pending: seq<int>, animating: int -> bool, id: int)
    requires ReapDefined(batch, pending, animating)
    ensures var finished := if animating(id) then 0 else multiset(pending)[id];
      && finished <= multiset(batch)[id]
      && multiset(Reap(batch, pending, animating).0)[id] == multiset(batch)[id] - finished
      && multiset(Reap(batch, pending, animating).1)[id] == multiset(pending)[id] - finished
  {
    FilterCount(pending, Not(animating));
    assert multiset(Finished(pending, animating))[id] == if animating(id) then 0 else multiset(pending)[id];
  }

  /** Reaping only removes entries. */
  lemma ReapShrinks(batch: seq<int>, pending: seq<int>, animating: int -> bool)
    requires ReapDefined(batch, pending, animating)
    ensures multiset(Reap(batch, pending, animating).0) <= multiset(batch)
    ensures multiset(Reap(batch, pending, animating).1) <= multiset(pending)
  {
    forall id ensures multiset(Reap(batch, pending, animating).1)[id] <= multiset(pending)[id] {
      ReapCount(batch, pending, animating, id);
    }
  }

  /** The reap loop as written: scan `deleteIds`; at the first finished entry
      remove it and its batch, then restart the scan from the front (`goto remove`). */
  method ReapLoop(batch: seq<int>, pending: seq<int>, animating: int -> bool)
    returns (batch': seq<int>, pending': seq<int>)
    requires ReapDefined(batch, pending, animating)
    ensures (batch', pending') == Reap(batch, pending, animating)
  {
    batch', pending' := batch, pending;
    var i: nat := 0;
    while i < |pending'|
      invariant Scanning(batch, pending, animating, batch', pending', i)
      decreases |pending'|, |pending'| - i
    {
      batch', pending', i := ReapScanStep(batch, pending, animating, batch', pending', i);
    }
    FilterAll(pending', animating);
  }

  /** State of the reap loop: the entries before `i` are animating, and what
      is still to be reaped from `(b, d)` leaves the same lists as the whole
      reap of `(batch, pending)`. */
  ghost predicate Scanning(batch: seq<int>, pending: seq<int>, animating: int -> bool,
                           b: seq<int>, d: seq<int>, i: nat)
  {
    && i <= |d|
    && (forall j :: 0 <= j < i ==> animating(d[j]))
    && Filter(d, animating) == Filter(pending, animating)
    && ReapDefined(b, d, animating)
    && ReapDefined(batch, pending, animating)
    && RemoveEach(b, Finished(d, animating)) == RemoveEach(batch, Finished(pending, animating))
  }

  /** One pass of the reap loop's body: skip an animating entry, or remove a
      finished one with its batch and restart the scan. */
  method ReapScanStep(batch: seq<int>, pending: seq<int>, animating: int -> bool,
                      b: seq<int>, d: seq<int>, i: nat)
    returns (b': seq<int>, d': seq<int>, i': nat)
    requires Scanning(batch, pending, animating, b, d, i) && i < |d|
    ensures Scanning(batch, pending, animating, b', d', i')
    ensures |d'| < |d| || (|d'| == |d| && i' > i)
  {
    if !animating(d[i]) {
      ReapStepKeeps(b, d, i, animating);
      b', d', i' := RemoveFirst(b, d[i]), RemoveAt(d, i), 0;
    } else {
      b', d', i' := b, d, i + 1;
    }
  }

  /** One removal of the reap loop keeps what is still to be reaped: removing
      the first finished entry and one matching batch entry leaves the same
      final lists. */
  lemma ReapStepKeeps(batch: seq<int>, d: seq<int>, i: nat, animating: int -> bool)
    requires i < |d| && !animating(d[i])
    requires forall j :: 0 <= j < i ==> animating(d[j])
    requires ReapDefined(batch, d, animating)
    ensures d[i] in batch
    ensures var b, d' := RemoveFirst(batch, d[i]), RemoveAt(d, i);
      && ReapDefined(b, d', animating)
      && Filter(d', animating) == Filter(d, animating)
      && RemoveEach(b, Finished(d', animating)) == RemoveEach(batch, Finished(d, animating))
  {
    ReapStep(d, i, animating);
    var x, rest := d[i], Finished(RemoveAt(d, i), animating);
    assert Finished(d, animating) == [x] + rest;
    assert x in multiset(Finished(d, animating));
    assert ([x] + rest)[1..] == rest;
    assert multiset(rest) <= multiset(RemoveFirst(batch, x));
  }

  /** Removing the first finished entry `d[i]` splits it off the finished ids
      and leaves the animating ones alone. */
  lemma ReapStep(d: seq<int>, i: nat, animating: int -> bool)
    requires i < |d| && !animating(d[i])
    requires forall j :: 0 <= j < i ==> animating(d[j])
    ensures Finished(d, animating) == [d[i]] + Finished(RemoveAt(d, i), animating)
    ensures Filter(RemoveAt(d, i), animating) == Filter(d, animating)
  {
    ReapStepFinished(d, i, animating);
    ReapStepKept(d, i, animating);
  }

  lemma ReapStepFinished(d: seq<int>, i: nat, animating: int -> bool)
    requires i < |d| && !animating(d[i])
    requires forall j :: 0 <= j < i ==> animating(d[j])
    ensures Finished(d, animating) == [d[i]] + Finished(RemoveAt(d, i), animating)
  {
    var q := Not(animating);
    FilterNone(d[..i], q);
    FilterAround(d, i, q);
    FilterRemoveAt(d, i, q);
  }

  lemma ReapStepKept(d: seq<int>, i: nat, animating: int -> bool)
    requires i < |d| && !animating(d[i])
    requires forall j :: 0 <= j < i ==> animating(d[j])
    ensures Filter(RemoveAt(d, i), animating) == Filter(d, animating)
  {
    FilterAround(d, i, animating);
    FilterRemoveAt(d, i, animating);
  }

  /** A list of ids that are all animating is its own animating part and has no finished part. */
  lemma FilterAll(d: seq<int>, animating: int -> bool)
    requires forall j :: 0 <= j < |d| ==> animating(d[j])
    ensures Filter(d, animating) == d
    ensures Finished(d, animating) == []
  {
    assert forall j :: 0 <= j < |d| ==> !Not(animating)(d[j]);
    FilterKeepsAll(d, animating);
    FilterNone(d, Not(animating));
  }

  // ------------------------------------------------------------- inarray

  /** `inarray`: linear membership test. */
  method InArray(x: int, a: seq<int>) returns (found: bool)
    ensures found <==> x in a
  {
    var i := 0;
    while i < |a|
      invariant 0 <= i <= |a|
      invariant x !in a[..i]
    {
      if a[i] == x {
        return true;
      }
      i := i + 1;
    }
    assert a[..i] == a;
    return false;
  }

  // ------------------------------------------------------- locating the cell

  /** The inclusive test of lines 226-227, 237-238 and 251-252 on a padded box. */
  predicate Contains(b: Box, p: Position)
  {
    b.minX as real <= p.x && b.minZ as real <= p.z && b.maxX as real >= p.x && b.maxZ as real >= p.z
  }

  /** The fast path (lines 226-230): the camera is still inside the previous cell's box. */
  predicate FastPath(g: Grid, t: Tracker, p: Position)
    requires ValidPrev(g, t)
  {
    t.previousChunkId != -1 && Contains(g.cells[t.previousChunkId].box, p)
  }

  /** Column test of lines 237-238: the minimum corner of the column's first
      cell and the maximum corner of its last cell bound the position. */
  predicate ColumnMatches(g: Grid, c: nat, p: Position)
    requires Shaped(g) && c < g.nrow && g.ncol > 0
  {
    var first, last := CellAt(g, c, 0).box, CellAt(g, c, g.ncol - 1).box;
    first.minX as real <= p.x && first.minZ as real <= p.z &&
    last.maxX as real >= p.x && last.maxZ as real >= p.z
  }

  /** The column loop (lines 235-244) from column `from`: the first matching column. */
  function FindColumn(g: Grid, p: Position, from: nat): (r: Option<nat>)
    requires Shaped(g) && (g.ncol == 0 ==> g.nrow == 0)
    ensures r.Some? ==> from <= r.value < g.nrow && ColumnMatches(g, r.value, p)
    ensures r.Some? ==> forall c :: from <= c < r.value ==> !ColumnMatches(g, c, p)
    ensures r.None? ==> forall c :: from <= c < g.nrow ==> !ColumnMatches(g, c, p)
    decreases g.nrow - from
  {
    if from >= g.nrow then None
    else if ColumnMatches(g, from, p) then Some(from)
    else FindColumn(g, p, from + 1)
  }

  /** The cell loop (lines 249-257) over column `c` from offset `from`: the first cell whose box holds the position. */
  function FindCell(g: Grid, c: nat, p: Position, from: nat): (r: Option<nat>)
    requires Shaped(g) && c < g.nrow
    ensures r.Some? ==> from <= r.value < g.ncol && Contains(CellAt(g, c, r.value).box, p)
    ensures r.Some? ==> forall i2 :: from <= i2 < r.value ==> !Contains(CellAt(g, c, i2).box, p)
    ensures r.None? ==> forall i2 :: from <= i2 < g.ncol ==> !Contains(CellAt(g, c, i2).box, p)
    decreases g.ncol - from
  {
    if from >= g.ncol then None
    else if Contains(CellAt(g, c, from).box, p) then Some(from)
    else FindCell(g, c, p, from + 1)
  }

  // ------------------------------------------------------------ the window

  /** The id the offset arithmetic of lines 266-267 gives window slot `(i, i2)`
      around `cid`, with `stride` for `chunknumberinrow`. */
  function WindowId(cid: int, r: nat, stride: nat, i: int, i2: int): int
  {
    cid - (r - i) - (r - i2) * stride
  }

  /** Row `i` of the window: slots `(i, 0) .. (i, 2r)`. */
  function WindowRow(cid: int, r: nat, stride: nat, i: int): seq<int>
  {
    seq(2 * r + 1, i2 => WindowId(cid, r, stride, i, i2))
  }

  /** `current_ids` as the nested loop of lines 260-271 fills it, row after row. */
  function Window(cid: int, r: nat, stride: nat): seq<int>
  {
    Flatten(seq(2 * r + 1, i => WindowRow(cid, r, stride, i)))
  }

  /** The nested loop of lines 260-271 as written, slot `index2` after slot `index2 - 1`. */
  method ComputeWindow(cid: int, r: nat, stride: nat) returns (ids: seq<int>)
    ensures |ids| == WindowSize(r)
    ensures forall i, i2 | 0 <= i < 2 * r + 1 && 0 <= i2 < 2 * r + 1 ::
      i * (2 * r + 1) + i2 < |ids| && ids[i * (2 * r + 1) + i2] == WindowId(cid, r, stride, i, i2)
  {
    var n := 2 * r + 1;
    var rows: seq<seq<int>> := [];
    ids := [];
    var i := 0;
    while i < n
      invariant 0 <= i <= n
      invariant |rows| == i
      invariant forall a :: 0 <= a < i ==> rows[a] == WindowRow(cid, r, stride, a)
      invariant ids == Flatten(rows)
    {
      var row: seq<int> := [];
      var i2 := 0;
      while i2 < n
        invariant 0 <= i2 <= n
        invariant row == seq(i2, b => WindowId(cid, r, stride, i, b))
      {
        row := row + [WindowId(cid, r, stride, i, i2)];
        i2 := i2 + 1;
      }
      assert Flatten(rows + [row]) == Flatten(rows) + row by {
        assert (rows + [row])[..|rows + [row]| - 1] == rows;
      }
      ids := ids + row;
      rows := rows + [row];
      i := i + 1;
    }
    assert rows == seq(n, a => WindowRow(cid, r, stride, a));
    WindowEntry(cid, r, stride);
  }

  /** Slot `i * (2r+1) + i2` of the window is `WindowId(cid, r, stride, i, i2)`,
      and the window has `(2r+1)^2` slots. */
  lemma WindowEntry(cid: int, r: nat, stride: nat)
    ensures |Window(cid, r, stride)| == WindowSize(r)
    ensures forall i, i2 | 0 <= i < 2 * r + 1 && 0 <= i2 < 2 * r + 1 ::
      i * (2 * r + 1) + i2 < |Window(cid, r, stride)| &&
      Window(cid, r, stride)[i * (2 * r + 1) + i2] == WindowId(cid, r, stride, i, i2)
  {
    var n := 2 * r + 1;
    WindowLength(cid, r, stride);
    forall i, i2 | 0 <= i < n && 0 <= i2 < n
      ensures i * n + i2 < |Window(cid, r, stride)|
      ensures Window(cid, r, stride)[i * n + i2] == WindowId(cid, r, stride, i, i2)
    {
      WindowAt(cid, r, stride, i, i2);
    }
  }

  /** The window has `(2r+1)^2` slots. */
  lemma WindowLength(cid: int, r: nat, stride: nat)
    ensures |Window(cid, r, stride)| == WindowSize(r)
  {
    var n := 2 * r + 1;
    var rows := seq(n, i => WindowRow(cid, r, stride, i));
    FlattenLength(rows, n);
  }

  /** Slot `(i, i2)` of the window sits at position `i * (2r+1) + i2`. */
  lemma WindowAt(cid: int, r: nat, stride: nat, i: nat, i2: nat)
    requires i < 2 * r + 1 && i2 < 2 * r + 1
    ensures i * (2 * r + 1) + i2 < |Window(cid, r, stride)|
    ensures Window(cid, r, stride)[i * (2 * r + 1) + i2] == WindowId(cid, r, stride, i, i2)
  {
    var n := 2 * r + 1;
    var rows := seq(n, a => WindowRow(cid, r, stride, a));
    FlattenLength(rows, n);
    FlattenAt(rows, n, i, i2);
  }

  // ------------------------------------------------------ diff and commit

  /** Ids the window adds to `batch` (lines 274-312): each in-range window id,
      unless the previous window exists and already held it. */
  function Entering(t: Tracker, w: seq<int>, size: nat): seq<int>
  {
    Filter(w, IsNew(t, size))
  }

  /** The test of lines 277-283: in range, and not held by the previous window when there is one. */
  function IsNew(t: Tracker, size: nat): int -> bool
  {
    id => 0 <= id < size && !(t.previousChunkId != -1 && t.previousIds.Some? && id in t.previousIds.value)
  }

  /** Ids the window sends to `deleteIds` (lines 315-333): each in-range
      previous id the new window no longer holds. */
  function Exiting(t: Tracker, w: seq<int>, size: nat): seq<int>
  {
    match t.previousIds
    case None => []
    case Some(prev) => Filter(prev, IsGone(w, size))
  }

  /** The test of lines 319-320: in range and not held by the new window. */
  function IsGone(w: seq<int>, size: nat): int -> bool
  {
    id => id !in w && 0 <= id < size
  }

  /** Lines 259-344 once `current_id` is chosen: compute the window, append the
      entering and exiting ids, and commit the window and the cell. */
  function Refresh(g: Grid, t: Tracker, cid: int): (t': Tracker)
    ensures t'.previousChunkId == cid && t'.previousIds == Some(t'.currentIds)
  {
    var w := Window(cid, g.range, g.nrow);
    Tracker(t.batch + Entering(t, w, |g.cells|), t.deleteIds + Exiting(t, w, |g.cells|), cid, Some(w), w)
  }

  /** What a refresh appends and commits: the window of `(2r+1)^2` ids around
      `cid`; `batch` gains exactly the in-range window ids the previous window
      did not hold (every in-range id on the first update), `deleteIds` gains
      exactly the in-range previous ids the new window lacks, and the earlier
      entries of both lists stay in place. The new entries come in slot
      order: those of `batch` in the order of the new window, those of
      `deleteIds` in the order of the previous one. */
  lemma RefreshSpec(g: Grid, t: Tracker, cid: int)
    ensures var t' := Refresh(g, t, cid);
      && |t'.currentIds| == WindowSize(g.range)
      && t'.batch[..|t.batch|] == t.batch && t'.deleteIds[..|t.deleteIds|] == t.deleteIds
      && Subsequence(t'.batch[|t.batch|..], t'.currentIds)
      && (t.previousIds.None? ==> t'.deleteIds == t.deleteIds)
      && (t.previousIds.Some? ==> Subsequence(t'.deleteIds[|t.deleteIds|..], t.previousIds.value))
      && (forall id :: id in t'.batch[|t.batch|..] <==>
            && id in t'.currentIds && 0 <= id < |g.cells|
            && (t.previousChunkId == -1 || t.previousIds.None? || id !in t.previousIds.value))
      && (forall id :: id in t'.deleteIds[|t.deleteIds|..] <==>
            && t.previousIds.Some? && id in t.previousIds.value
            && id !in t'.currentIds && 0 <= id < |g.cells|)
  {
    var w := Window(cid, g.range, g.nrow);
    WindowEntry(cid, g.range, g.nrow);
    var entering := Entering(t, w, |g.cells|);
    var exiting := Exiting(t, w, |g.cells|);
    FilterCount(w, IsNew(t, |g.cells|));
    FilterSubsequence(w, IsNew(t, |g.cells|));
    if t.previousIds.Some? {
      FilterCount(t.previousIds.value, IsGone(w, |g.cells|));
      FilterSubsequence(t.previousIds.value, IsGone(w, |g.cells|));
    }
    assert (t.batch + entering)[..|t.batch|] == t.batch && (t.batch + entering)[|t.batch|..] == entering;
    assert (t.deleteIds + exiting)[..|t.deleteIds|] == t.deleteIds;
    assert (t.deleteIds + exiting)[|t.deleteIds|..] == exiting;
  }

  /** The same diff counted per id: each id the refresh appends to `batch`
      appears as often as in the window, each it appends to `deleteIds` as
      often as in the previous window. */
  lemma RefreshCounts(g: Grid, t: Tracker, cid: int, id: int)
    ensures var t' := Refresh(g, t, cid);
      && multiset(t'.batch)[id] == multiset(t.batch)[id] +
           (if 0 <= id < |g.cells| && !(t.previousChunkId != -1 && t.previousIds.Some? && id in t.previousIds.value)
            then multiset(t'.currentIds)[id] else 0)
      && multiset(t'.deleteIds)[id] == multiset(t.deleteIds)[id] +
           (if t.previousIds.Some? && id !in t'.currentIds && 0 <= id < |g.cells|
            then multiset(t.previousIds.value)[id] else 0)
  {
    var w := Window(cid, g.range, g.nrow);
    var t' := Refresh(g, t, cid);
    var size := |g.cells|;
    FilterCount(w, IsNew(t, size));
    assert multiset(t'.batch) == multiset(t.batch) + multiset(Entering(t, w, size));
    assert multiset(Entering(t, w, size))[id] == if IsNew(t, size)(id) then multiset(w)[id] else 0;
    if t.previousIds.Some? {
      FilterCount(t.previousIds.value, IsGone(w, size));
      assert multiset(Exiting(t, w, size))[id] ==
        if IsGone(w, size)(id) then multiset(t.previousIds.value)[id] else 0;
    }
    assert multiset(t'.deleteIds) == multiset(t.deleteIds) + multiset(Exiting(t, w, size));
  }

  // ------------------------------------------------------------ one call

  /** The grid shapes the tracker can run on: the column loop reads the first
      and last cell of a column, so a grid with columns has cells in them. */
  predicate Trackable(g: Grid)
  {
    Shaped(g) && (g.ncol == 0 ==> g.nrow == 0)
  }

  /** The window part of the state: what the fast path and a failed search leave alone. */
  predicate SameWindow(t: Tracker, t': Tracker)
  {
    t'.previousChunkId == t.previousChunkId && t'.previousIds == t.previousIds && t'.currentIds == t.currentIds
  }

  /** The two-phase search of lines 232-257: `None` when no column matches
      (the call returns), else the id to commit: the first cell of the first
      matching column whose box holds the camera, or the previous id when that
      column has none. */
  function Locate(g: Grid, t: Tracker, p: Position): (r: Option<int>)
    requires Trackable(g) && ValidPrev(g, t)
    ensures r.Some? ==> r.value == t.previousChunkId || 0 <= r.value < |g.cells|
  {
    match FindColumn(g, p, 0)
    case None => None
    case Some(c) =>
      match FindCell(g, c, p, 0)
      case Some(i2) => IndexInGrid(c, i2, g.nrow, g.ncol); Some(c * g.ncol + i2)
      case None => Some(t.previousChunkId)
  }

  /** The tracker after the reap loop, before the fast-path test. */
  function Reaped(t: Tracker, animating: int -> bool): (t': Tracker)
    requires ReapDefined(t.batch, t.deleteIds, animating)
    ensures SameWindow(t, t')
  {
    var r := Reap(t.batch, t.deleteIds, animating);
    t.(batch := r.0, deleteIds := r.1)
  }

  /** `update_chunk_op` with the camera at `p` and `animating` answering
      `has_animation_br_manager` for the batch of an id. */
  function Update(g: Grid, t: Tracker, p: Position, animating: int -> bool): (t': Tracker)
    requires Trackable(g) && ValidPrev(g, t)
    requires ReapDefined(t.batch, t.deleteIds, animating)
    ensures ValidPrev(g, t')
  {
    var reaped := Reaped(t, animating);
    if FastPath(g, t, p) then reaped
    else
      match Locate(g, t, p)
      case None => reaped
      case Some(cid) => Refresh(g, reaped, cid)
  }

  /** Every call reaps first. The fast path and a failed column search leave
      the window state alone and add nothing; otherwise the committed cell is
      the first cell of the first matching column whose box holds the camera,
      or, when that column has none, the previous cell. */
  lemma UpdateSpec(g: Grid, t: Tracker, p: Position, animating: int -> bool)
    requires Trackable(g) && ValidPrev(g, t)
    requires ReapDefined(t.batch, t.deleteIds, animating)
    ensures var t' := Update(g, t, p, animating);
      && (FastPath(g, t, p) || FindColumn(g, p, 0).None? ==> t' == Reaped(t, animating))
      && (!FastPath(g, t, p) && FindColumn(g, p, 0).Some? ==>
            var c := FindColumn(g, p, 0).value;
            && t' == Refresh(g, Reaped(t, animating), t'.previousChunkId)
            && match FindCell(g, c, p, 0)
               case Some(i2) => t'.previousChunkId == c * g.ncol + i2 && Contains(CellAt(g, c, i2).box, p)
               case None => t'.previousChunkId == t.previousChunkId)
  {
  }
}
