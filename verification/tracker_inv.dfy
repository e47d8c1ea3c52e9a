/** The bookkeeping invariant of the tracker: `batch` holds one entry for
    every pending removal plus one for every in-range cell of the committed
    window. It makes the batch lookup of the reap loop (src/core/chunk.c:217)
    succeed on every later call, and it is kept by every call on a tiled grid
    whose window fits in a row of the layout. */
module TrackerInvariant {
  import opened Arith
  import opened Sequences
  import opened Chunks
  import opened ChunkGrid
  import opened Tracker
  import opened TrackerProps

  /** 1 when `id` is an in-range cell of the committed window, else 0. */
  function Live(g: Grid, t: Tracker, id: int): nat
  {
    if t.previousIds.Some? && id in t.previousIds.value && 0 <= id < |g.cells| then 1 else 0
  }

  /** The tracker invariant. */
  ghost predicate Inv(g: Grid, t: Tracker)
  {
    && ValidPrev(g, t)
    && (t.previousIds.None? <==> t.previousChunkId == -1)
    && (t.previousIds.Some? ==> Distinct(t.previousIds.value))
    && forall id :: multiset(t.batch)[id] >= multiset(t.deleteIds)[id] + Live(g, t, id)
  }

  /** The tracker create_chunk_op leaves satisfies the invariant. */
  lemma InitialInv(g: Grid)
    ensures Inv(g, NewTracker())
  {
  }

  /** Under the invariant every finished pending id has its own entry in `batch`. */
  lemma InvReapDefined(g: Grid, t: Tracker, animating: int -> bool)
    requires Inv(g, t)
    ensures ReapDefined(t.batch, t.deleteIds, animating)
  {
    FilterCount(t.deleteIds, Not(animating));
    assert forall id :: multiset(Finished(t.deleteIds, animating))[id] <= multiset(t.batch)[id];
  }

  /** Reaping removes as many entries of an id from `batch` as from `deleteIds`. */
  lemma ReapKeepsInv(g: Grid, t: Tracker, animating: int -> bool)
    requires Inv(g, t)
    ensures ReapDefined(t.batch, t.deleteIds, animating)
    ensures Inv(g, Reaped(t, animating))
  {
    InvReapDefined(g, t, animating);
    var t' := Reaped(t, animating);
    assert SameWindow(t, t') && ValidPrev(g, t');
    assert forall id :: multiset(t'.batch)[id] >= multiset(t'.deleteIds)[id] + Live(g, t', id) by {
      forall id
        ensures multiset(t'.batch)[id] >= multiset(t'.deleteIds)[id] + Live(g, t', id)
      {
        ReapCount(t.batch, t.deleteIds, animating, id);
        assert Live(g, t', id) == Live(g, t, id);
      }
    }
  }

  /** A refresh at a cell keeps the invariant when the window fits in a row:
      an id leaving the window moves its entry to `deleteIds`, an id entering
      it gains one entry. */
  lemma RefreshKeepsInv(g: Grid, t: Tracker, cid: int)
    requires Inv(g, t) && 0 <= cid < |g.cells| && 2 * g.range + 1 <= g.nrow
    ensures Inv(g, Refresh(g, t, cid))
  {
    var t' := Refresh(g, t, cid);
    WindowDistinct(cid, g.range, g.nrow);
    forall id
      ensures multiset(t'.batch)[id] >= multiset(t'.deleteIds)[id] + Live(g, t', id)
    {
      RefreshCounts(g, t, cid, id);
      DistinctCount(t'.currentIds, id);
      if t.previousIds.Some? {
        DistinctCount(t.previousIds.value, id);
      }
    }
  }

  /** Every call on a tiled grid whose window fits in a row keeps the invariant. */
  lemma UpdateKeepsInv(g: Grid, cfg: Config, t: Tracker, p: Position, animating: int -> bool)
    requires Tiled(g, cfg) && Trackable(g) && 2 * g.range + 1 <= g.nrow
    requires Inv(g, t) && ReapDefined(t.batch, t.deleteIds, animating)
    ensures Inv(g, Update(g, t, p, animating))
  {
    ReapKeepsInv(g, t, animating);
    if !FastPath(g, t, p) && FindColumn(g, p, 0).Some? {
      var cid := CommittedCell(g, cfg, t, p, animating);
      RefreshKeepsInv(g, Reaped(t, animating), cid);
    } else {
      ExitIsReaped(g, t, p, animating);
    }
  }

  /** With range 1 and row stride 2 the window around `cid` names `cid - 1`
      and `cid + 1` twice each. */
  lemma NarrowWindow(cid: int)
    ensures Window(cid, 1, 2) == [cid - 3, cid - 1, cid + 1, cid - 2, cid, cid + 2, cid - 1, cid + 1, cid + 3]
  {
    var w := Window(cid, 1, 2);
    WindowLength(cid, 1, 2);
    WindowAt(cid, 1, 2, 0, 0); WindowAt(cid, 1, 2, 0, 1); WindowAt(cid, 1, 2, 0, 2);
    WindowAt(cid, 1, 2, 1, 0); WindowAt(cid, 1, 2, 1, 1); WindowAt(cid, 1, 2, 1, 2);
    WindowAt(cid, 1, 2, 2, 0); WindowAt(cid, 1, 2, 2, 1); WindowAt(cid, 1, 2, 2, 2);
  }

  /** Id 2 is in the window around cell 0 once. */
  lemma NarrowCountAt0(cid: int)
    requires cid == 0
    ensures 2 in Window(cid, 1, 2) && multiset(Window(cid, 1, 2))[2] == 1
  {
    NarrowWindow(cid);
    var w := [cid - 3, cid - 1, cid + 1, cid - 2, cid, cid + 2, cid - 1, cid + 1, cid + 3];
    assert w[5] == 2;
    assert multiset(w)[2] == 1;
  }

  /** Id 2 is in the window around cell 1 twice. */
  lemma NarrowCountAt1(cid: int)
    requires cid == 1
    ensures 2 in Window(cid, 1, 2) && multiset(Window(cid, 1, 2))[2] == 2
  {
    NarrowWindow(cid);
    var w := [cid - 3, cid - 1, cid + 1, cid - 2, cid, cid + 2, cid - 1, cid + 1, cid + 3];
    assert w[2] == 2;
    assert multiset(w)[2] == 2;
  }

  /** Id 2 is not in the window around cell 10. */
  lemma NarrowCountAt10(cid: int)
    requires cid == 10
    ensures 2 !in Window(cid, 1, 2)
  {
    NarrowWindow(cid);
    var w := Window(cid, 1, 2);
    assert forall k | 0 <= k < |w| :: w[k] >= 7;
  }

  /** One located call of the example below on a 2 by 11 grid with range 1:
      how often id 2 is in each list after refreshing at `cid` from a tracker
      whose committed window is around `prev`. */
  lemma NarrowStep(g: Grid, t: Tracker, prev: int, cid: int, inBatch: nat, pending: nat)
    requires |g.cells| == 22 && g.nrow == 2 && g.range == 1
    requires t.previousIds == Some(Window(prev, 1, 2)) && t.previousChunkId != -1
    requires multiset(t.batch)[2] == inBatch && multiset(t.deleteIds)[2] == pending
    ensures var t' := Refresh(g, t, cid);
      && t'.previousIds == Some(Window(cid, 1, 2)) && t'.previousChunkId == cid
      && multiset(t'.batch)[2] == inBatch + (if 2 in Window(prev, 1, 2) then 0 else multiset(Window(cid, 1, 2))[2])
      && multiset(t'.deleteIds)[2] == pending + (if 2 in Window(cid, 1, 2) then 0 else multiset(Window(prev, 1, 2))[2])
  {
    RefreshCounts(g, t, cid, 2);
  }

  /** As written, a window wider than a row of cells breaks the invariant and
      with it the lookup of line 217. On any 2 by 11 grid with range 1, three
      located calls at cells 0, 1 and 10 while every animation still runs (so
      each reap is empty) leave id 2 pending removal twice but in `batch` once:
      the window around cell 1 names it twice, the one around cell 0 only once.
      Once the animations end, the reap has no batch entry for the second removal. */
  lemma AsWrittenReapUndefinedExample(g: Grid)
    requires Shaped(g) && g.nrow == 2 && g.ncol == 11 && g.range == 1
    ensures var t := Refresh(g, Refresh(g, Refresh(g, NewTracker(), 0), 1), 10);
      && multiset(t.deleteIds)[2] == 2 && multiset(t.batch)[2] == 1
      && !ReapDefined(t.batch, t.deleteIds, _ => false)
  {
    var c0, c1, c10 := 0, 1, 10;
    var t3 := NarrowThird(g, c0, c1, c10);
    PendingTwice(t3.batch, t3.deleteIds);
  }

  /** The first call of the example: every in-range id of the window around
      cell 0 enters `batch`. */
  lemma NarrowFirst(g: Grid, c0: int) returns (t1: Tracker)
    requires Shaped(g) && g.nrow == 2 && g.ncol == 11 && g.range == 1 && c0 == 0
    ensures t1 == Refresh(g, NewTracker(), c0)
    ensures t1.previousIds == Some(Window(c0, 1, 2)) && t1.previousChunkId == c0
    ensures multiset(t1.batch)[2] == 1 && multiset(t1.deleteIds)[2] == 0
  {
    assert |g.cells| == 22;
    t1 := Refresh(g, NewTracker(), c0);
    NarrowCountAt0(c0);
    RefreshCounts(g, NewTracker(), c0, 2);
  }

  /** The second call of the example, at cell 1: id 2 stays in both windows. */
  lemma NarrowSecond(g: Grid, c0: int, c1: int) returns (t2: Tracker)
    requires Shaped(g) && g.nrow == 2 && g.ncol == 11 && g.range == 1 && c0 == 0 && c1 == 1
    ensures t2 == Refresh(g, Refresh(g, NewTracker(), c0), c1)
    ensures t2.previousIds == Some(Window(c1, 1, 2)) && t2.previousChunkId == c1
    ensures multiset(t2.batch)[2] == 1 && multiset(t2.deleteIds)[2] == 0
  {
    var t1 := NarrowFirst(g, c0);
    t2 := Refresh(g, t1, c1);
    NarrowCountAt0(c0);
    NarrowCountAt1(c1);
    NarrowStep(g, t1, c0, c1, 1, 0);
  }

  /** The third call of the example, at cell 10: both copies of id 2 in the
      window around cell 1 are sent to `deleteIds`. */
  lemma NarrowThird(g: Grid, c0: int, c1: int, c10: int) returns (t3: Tracker)
    requires Shaped(g) && g.nrow == 2 && g.ncol == 11 && g.range == 1 && c0 == 0 && c1 == 1 && c10 == 10
    ensures t3 == Refresh(g, Refresh(g, Refresh(g, NewTracker(), c0), c1), c10)
    ensures multiset(t3.deleteIds)[2] == 2 && multiset(t3.batch)[2] == 1
  {
    var t2 := NarrowSecond(g, c0, c1);
    t3 := Refresh(g, t2, c10);
    assert |g.cells| == 22;
    NarrowCountAt1(c1);
    NarrowCountAt10(c10);
    NarrowStep(g, t2, c1, c10, 1, 0);
  }

  /** An id pending removal twice but in `batch` once leaves the reap undefined
      once its animations end. */
  lemma PendingTwice(batch: seq<int>, pending: seq<int>)
    requires multiset(pending)[2] == 2 && multiset(batch)[2] == 1
    ensures !ReapDefined(batch, pending, _ => false)
  {
    FilterCount(pending, Not(_ => false));
  }

  /** The batch list is not duplicate-free: an id whose remove animation is
      still running when its cell re-enters the window gets a second entry. */
  lemma ReentryDuplicates(g: Grid, cfg: Config, t: Tracker, p: Position, animating: int -> bool, id: int)
    requires Tiled(g, cfg) && Trackable(g) && 2 * g.range + 1 <= g.nrow
    requires Inv(g, t) && ReapDefined(t.batch, t.deleteIds, animating)
    requires id in t.deleteIds && animating(id) && 0 <= id < |g.cells|
    requires t.previousIds.Some? && id !in t.previousIds.value
    requires !FastPath(g, t, p) && FindColumn(g, p, 0).Some?
    requires id in Update(g, t, p, animating).currentIds
    ensures multiset(Update(g, t, p, animating).batch)[id] >= 2
  {
    var reaped := Reaped(t, animating);
    ReapKeepsInv(g, t, animating);
    var cid := CommittedCell(g, cfg, t, p, animating);
    assert multiset(reaped.batch)[id] >= 1;
    RefreshCounts(g, reaped, cid, id);
  }
}
