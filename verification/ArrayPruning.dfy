/** Dropping an array argument once an older task covers it: when that loses no order, and when it does. */
module ArrayPruning {
  import opened Regions
  import opened ArgScan
  import opened Containment

  /** Entries on the array of `w`, of its rank, none empty. */
  predicate OnArray(ps: seq<Region>, w: Region) {
    Solid(w.dims) && forall p | p in ps :: p.addr == w.addr && |p.dims| == |w.dims| && Solid(p.dims)
  }

  /** The test of `insert_in_worklist` on the entries of the older task from the one where the conflict was found. */
  predicate Prunes(ps: seq<Region>, w: Region)
    requires ps != []
  {
    ps[0].wr && ContainedInArray(w, ps, 0)
  }

  /** Nothing that conflicts with the dropped argument is free of conflict with the entries that dropped it. */
  ghost predicate LosesNoOrder(ps: seq<Region>, w: Region) {
    forall q: Region | q.addr == w.addr && |q.dims| == |w.dims| && Solid(q.dims) && ArrayConflict(q, w) ::
      exists p | p in ps :: ArrayConflict(q, p)
  }

  predicate WrittenAt(ps: seq<Region>, cell: seq<int>) {
    exists p | p in ps :: p.wr && InBox(cell, p.dims)
  }

  /** Dropping a contained argument loses no order exactly when it is only read, or each of its cells is written
      by some entry that contains the cell. */
  lemma PruningExact(ps: seq<Region>, w: Region)
    requires ps != [] && OnArray(ps, w) && Prunes(ps, w)
    ensures LosesNoOrder(ps, w) <==> (w.wr ==> forall cell: seq<int> | InBox(cell, w.dims) :: WrittenAt(ps, cell))
  {
    ContainedInArrayExact(w, ps, 0);
    if LosesNoOrder(ps, w) && w.wr {
      forall cell: seq<int> | InBox(cell, w.dims) ensures WrittenAt(ps, cell) {
        UnwrittenCellLosesOrder(ps, w, cell);
      }
    }
    if !w.wr || forall cell: seq<int> | InBox(cell, w.dims) :: WrittenAt(ps, cell) {
      forall q: Region | q.addr == w.addr && |q.dims| == |w.dims| && Solid(q.dims) && ArrayConflict(q, w)
        ensures exists p | p in ps :: ArrayConflict(q, p)
      {
        CoveredConflict(ps, w, q);
      }
    }
  }

  function Point(cell: seq<int>): seq<(int, int)> {
    seq(|cell|, d requires 0 <= d < |cell| => (cell[d], cell[d]))
  }

  lemma PointHasOneCell(cell: seq<int>, c: seq<int>)
    ensures InBox(c, Point(cell)) <==> c == cell
  {
    if InBox(c, Point(cell)) {
      assert forall d | 0 <= d < |cell| :: Point(cell)[d].0 <= c[d] <= Point(cell)[d].1;
    }
  }

  lemma MeetsPoint(dims: seq<(int, int)>, cell: seq<int>)
    requires Solid(dims) && |cell| == |dims|
    ensures RangesOverlap(dims, Point(cell)) <==> InBox(cell, dims)
  {
    OverlapIffShareCell(dims, Point(cell));
    PointHasOneCell(cell, cell);
    if c: seq<int> :| InBox(c, dims) && InBox(c, Point(cell)) {
      PointHasOneCell(cell, c);
    }
  }

  /** A one-cell reader of a cell that is not written tells the difference. */
  lemma UnwrittenCellLosesOrder(ps: seq<Region>, w: Region, cell: seq<int>)
    requires OnArray(ps, w) && w.wr && InBox(cell, w.dims) && LosesNoOrder(ps, w)
    ensures WrittenAt(ps, cell)
  {
    var q := Region(w.addr, w.size, false, Point(cell));
    MeetsPoint(w.dims, cell);
    assert ArrayConflict(q, w);
    var p :| p in ps && ArrayConflict(q, p);
    MeetsPoint(p.dims, cell);
  }

  lemma CoveredConflict(ps: seq<Region>, w: Region, q: Region)
    requires OnArray(ps, w) && exists k | 0 <= k < |ps| :: ArrayContains(ps[k], w)
    requires !w.wr || forall cell: seq<int> | InBox(cell, w.dims) :: WrittenAt(ps, cell)
    requires q.addr == w.addr && |q.dims| == |w.dims| && Solid(q.dims) && ArrayConflict(q, w)
    ensures exists p | p in ps :: ArrayConflict(q, p)
  {
    OverlapIffShareCell(w.dims, q.dims);
    var cell: seq<int> :| InBox(cell, w.dims) && InBox(cell, q.dims);
    var p: Region;
    if w.wr {
      assert WrittenAt(ps, cell);
      p :| p in ps && p.wr && InBox(cell, p.dims);
    } else {
      var k :| 0 <= k < |ps| && ArrayContains(ps[k], w);
      p := ps[k];
    }
    assert InBox(cell, p.dims);
    OverlapIffShareCell(p.dims, q.dims);
    assert p in ps && ArrayConflict(q, p);
  }

  /** With one entry per array the test is enough. */
  lemma OneEntryLosesNoOrder(p: Region, w: Region)
    requires OnArray([p], w) && Prunes([p], w)
    ensures LosesNoOrder([p], w)
  {
    PruningExact([p], w);
    ContainedInArrayExact(w, [p], 0);
    assert p in [p];
    forall cell: seq<int> | InBox(cell, w.dims) ensures WrittenAt([p], cell) {
      assert InBox(cell, p.dims);
    }
  }

  /** A task that writes [0, 1] and reads [0, 9] of an array makes a newer writer of [5, 6] drop its argument,
      although an older reader of [5, 6] conflicts with that writer and not with the task. */
  lemma MixedEntriesLoseOrder()
    ensures var ps := [Region(0, 8, true, [(0, 1)]), Region(0, 8, false, [(0, 9)])];
            var w := Region(0, 8, true, [(5, 6)]);
            OnArray(ps, w) && Hit(ps, 0, w) && Prunes(ps, w) && !LosesNoOrder(ps, w)
  {
    var a, b := Region(0, 8, true, [(0, 1)]), Region(0, 8, false, [(0, 9)]);
    var w := Region(0, 8, true, [(5, 6)]);
    var q := w.(wr := false);
    assert Clash(b, w) && OverlapArray(w, [a, b], 1);
    assert RangesContain(b.dims, w.dims) && ContainedInArray(w, [a, b], 1);
    assert ArrayConflict(q, w);
    assert !OverlapsIntervals(a.dims[0].0, a.dims[0].1, q.dims[0].0, q.dims[0].1);
    assert !ArrayConflict(q, a) && !ArrayConflict(q, b);
  }
}
