/** `is_contained`: whether everything a task touches lies inside what an ancestor touches. */
module Containment {
  import opened Regions
  import opened ArgScan

  predicate RangesContain(outer: seq<(int, int)>, inner: seq<(int, int)>) {
    |outer| == |inner|
    && forall d | 0 <= d < |inner| :: ContainsIntervals(outer[d].0, outer[d].1, inner[d].0, inner[d].1)
  }

  /** `is_contained_array`: some entry of `ps` from `i` on, still on the array of `w`, contains `w`. */
  predicate ContainedInArray(w: Region, ps: seq<Region>, i: nat)
    requires i < |ps|
    decreases |ps| - i
  {
    RangesContain(ps[i].dims, w.dims)
    || (i + 1 < |ps| && ps[i + 1].addr == w.addr && ContainedInArray(w, ps, i + 1))
  }

  /** The test of pruning, for the argument `w` and the entries of `ps` from the one in conflict. */
  predicate Covered(w: Region, ps: seq<Region>, k: nat)
    requires k < |ps|
  {
    if w.IsArray() then ContainedInArray(w, ps, k) else Contains(ps[k], w)
  }

  /** The walk of `is_contained` from `ws[j]`, `ps[i]`. */
  predicate ContainedFrom(ws: seq<Region>, ps: seq<Region>, j: nat, i: nat)
    requires j <= |ws| && i <= |ps|
    decreases |ws| - j + |ps| - i
  {
    if j == |ws| || i == |ps| then j == |ws|
    else if ws[j].addr < ps[i].addr then false
    else if ws[j].IsArray() then
      if ps[i].addr == ws[j].addr then ContainedInArray(ws[j], ps, i) && ContainedFrom(ws, ps, j + 1, i)
      else ContainedFrom(ws, ps, j, i + 1)
    else if Contains(ps[i], ws[j]) then ContainedFrom(ws, ps, j + 1, i)
    else ContainedFrom(ws, ps, j, i + 1)
  }

  // ----- one argument inside another

  /** Two entries of one array, one inside the other. */
  predicate ArrayContains(p: Region, w: Region) {
    p.addr == w.addr && RangesContain(p.dims, w.dims)
  }

  /** A corner of the selection `dims`, and the opposite one. */
  function Low(dims: seq<(int, int)>): seq<int> { seq(|dims|, d requires 0 <= d < |dims| => dims[d].0) }

  function High(dims: seq<(int, int)>): seq<int> { seq(|dims|, d requires 0 <= d < |dims| => dims[d].1) }

  /** The test on ranges is exact: every element of the inner selection is one of the outer selection. */
  lemma RangesContainExact(outer: seq<(int, int)>, inner: seq<(int, int)>)
    requires Solid(inner)
    ensures RangesContain(outer, inner) <==> forall cell: seq<int> :: InBox(cell, inner) ==> InBox(cell, outer)
  {
    if forall cell: seq<int> :: InBox(cell, inner) ==> InBox(cell, outer) {
      var low, high := Low(inner), High(inner);
      assert InBox(low, inner) && InBox(high, inner);
      forall d | 0 <= d < |inner| ensures ContainsIntervals(outer[d].0, outer[d].1, inner[d].0, inner[d].1) {
        assert outer[d].0 <= low[d] && high[d] <= outer[d].1;
      }
    }
  }

  /** Every place of `w` is a place of `p`. */
  ghost predicate Inside(w: Region, p: Region) {
    forall place: Place :: Covers(w, place) ==> Covers(p, place)
  }

  /** The same for selections of one array, element by element. */
  ghost predicate CellsInside(w: Region, p: Region) {
    p.addr == w.addr && forall cell: seq<int> :: InBox(cell, w.dims) ==> InBox(cell, p.dims)
  }

  /** The same for what lies between the first and the last byte. */
  ghost predicate BytesInside(w: Region, p: Region) {
    forall at: int :: Spans(w, at) ==> Spans(p, at)
  }

  predicate Spans(r: Region, at: int) { r.addr <= at < r.addr + r.size }

  lemma BytesInsideExact(w: Region, p: Region)
    requires w.size > 0
    ensures Contains(p, w) <==> BytesInside(w, p)
  {
    if BytesInside(w, p) {
      assert Spans(w, w.addr) && Spans(w, w.addr + w.size - 1);
    }
  }

  /** The tests of the code on two arguments of one kind. */
  predicate Encloses(p: Region, w: Region) {
    if p.IsArray() && w.IsArray() then ArrayContains(p, w) else !p.IsArray() && !w.IsArray() && Contains(p, w)
  }

  lemma EnclosesExact(p: Region, w: Region)
    requires w.Proper()
    ensures Encloses(p, w) <==> Inside(w, p)
  {
    if w.IsArray() {
      RangesContainExact(p.dims, w.dims);
      assert Covers(w, Cell(w.addr, Low(w.dims)));
      assert forall cell: seq<int> :: InBox(cell, w.dims) ==> Covers(w, Cell(w.addr, cell));
    } else {
      assert Covers(w, Byte(w.addr)) && Covers(w, Byte(w.addr + w.size - 1));
    }
  }

  lemma {:induction false} ContainedInArrayExact(w: Region, ps: seq<Region>, i: nat)
    requires i < |ps| && ps[i].addr == w.addr && SortedByArray(ps)
    ensures ContainedInArray(w, ps, i) <==> exists k | i <= k < |ps| :: ArrayContains(ps[k], w)
    decreases |ps| - i
  {
    if i + 1 < |ps| && ps[i + 1].addr == w.addr {
      ContainedInArrayExact(w, ps, i + 1);
      assert ArrayContains(ps[i], w) <==> RangesContain(ps[i].dims, w.dims);
    } else {
      forall k | i < k < |ps| ensures ps[k].addr != w.addr {
        assert ps[i + 1].addr <= ps[k].addr;
      }
    }
  }

  // ----- the walk

  /** A plain region and an array share no address. */
  predicate KeepApart(p: Region, w: Region) {
    p.IsArray() != w.IsArray() ==> p.addr != w.addr && !Overlaps(p, w)
  }

  predicate AllApart(ps: seq<Region>, ws: seq<Region>) {
    forall p, w | p in ps && w in ws :: KeepApart(p, w)
  }

  predicate SomeEncloses(ps: seq<Region>, i: nat, w: Region) {
    exists k | i <= k < |ps| :: Encloses(ps[k], w)
  }

  lemma NothingBefore(ws: seq<Region>, ps: seq<Region>, j: nat, i: nat)
    requires InOrder(ps) && i < |ps| && j < |ws| && ws[j].addr < ps[i].addr
    ensures !SomeEncloses(ps, i, ws[j])
  {
    forall k | i <= k < |ps| ensures !Encloses(ps[k], ws[j]) {
      assert k > i ==> ps[i].addr <= ps[k].addr;
    }
  }

  /** A region that does not enclose `ws[j]` is not needed by anything after it either: what it encloses there lies
      inside what encloses `ws[j]`. */
  lemma SkippedEnclosesNone(ws: seq<Region>, ps: seq<Region>, j: nat, i: nat, l: nat)
    requires AllProper(ws) && InOrder(ws) && InOrder(ps) && AllApart(ps, ws) && j <= l < |ws| && i < |ps|
    requires ps[i].addr <= ws[j].addr && SomeEncloses(ps, i, ws[j]) && SomeEncloses(ps, i, ws[l])
    requires if ws[j].IsArray() then ps[i].addr < ws[j].addr else !Contains(ps[i], ws[j])
    ensures SomeEncloses(ps, i + 1, ws[l])
  {
    var m :| i <= m < |ps| && Encloses(ps[m], ws[j]);
    var k :| i <= k < |ps| && Encloses(ps[k], ws[l]);
    assert KeepApart(ps[i], ws[j]) && KeepApart(ps[i], ws[l]);
    if k == i {
      assert Encloses(ps[m], ws[l]);
    }
  }

  lemma {:induction false} ContainedFromExact(ws: seq<Region>, ps: seq<Region>, j: nat, i: nat)
    requires AllProper(ws) && InOrder(ws) && InOrder(ps) && AllApart(ps, ws) && j <= |ws| && i <= |ps|
    ensures ContainedFrom(ws, ps, j, i) <==> forall l | j <= l < |ws| :: SomeEncloses(ps, i, ws[l])
    decreases |ws| - j + |ps| - i
  {
    if j == |ws| || i == |ps| {
      assert j < |ws| ==> !SomeEncloses(ps, i, ws[j]);
    } else if ws[j].addr < ps[i].addr {
      NothingBefore(ws, ps, j, i);
    } else {
      assert KeepApart(ps[i], ws[j]);
      if if ws[j].IsArray() then ps[i].addr == ws[j].addr else Contains(ps[i], ws[j]) {
        ContainedFromExact(ws, ps, j + 1, i);
        EncloserIsFound(ws, ps, j, i);
      } else {
        ContainedFromExact(ws, ps, j, i + 1);
        if forall l | j <= l < |ws| :: SomeEncloses(ps, i, ws[l]) {
          assert SomeEncloses(ps, i, ws[j]);
          forall l | j <= l < |ws| ensures SomeEncloses(ps, i + 1, ws[l]) {
            assert SomeEncloses(ps, i, ws[l]);
            SkippedEnclosesNone(ws, ps, j, i, l);
          }
        }
      }
    }
  }

  /** Where the walk goes on to the next argument, the test has told whether the last one is enclosed. */
  lemma EncloserIsFound(ws: seq<Region>, ps: seq<Region>, j: nat, i: nat)
    requires InOrder(ps) && j < |ws| && i < |ps| && KeepApart(ps[i], ws[j]) && ws[j].Proper()
    requires if ws[j].IsArray() then ps[i].addr == ws[j].addr else Contains(ps[i], ws[j])
    ensures SomeEncloses(ps, i, ws[j]) <==> (ws[j].IsArray() ==> ContainedInArray(ws[j], ps, i))
  {
    if ws[j].IsArray() {
      ContainedInArrayExact(ws[j], ps, i);
      if ContainedInArray(ws[j], ps, i) {
        var k :| i <= k < |ps| && ArrayContains(ps[k], ws[j]);
        assert Encloses(ps[k], ws[j]);
      }
    } else {
      assert Encloses(ps[i], ws[j]);
    }
  }

  /** Every argument lies inside a single argument of the other list, place by place. */
  ghost predicate AllInside(ws: seq<Region>, ps: seq<Region>) {
    forall w | w in ws :: exists p | p in ps :: Inside(w, p)
  }

  /** The walk is exact, on lists of plain regions and arrays whose own entries may overlap or nest. */
  lemma ContainmentExact(ws: seq<Region>, ps: seq<Region>)
    requires AllProper(ws) && InOrder(ws) && InOrder(ps) && AllApart(ps, ws)
    ensures ContainedFrom(ws, ps, 0, 0) <==> AllInside(ws, ps)
  {
    ContainedFromExact(ws, ps, 0, 0);
    if AllInside(ws, ps) {
      forall l | 0 <= l < |ws| ensures SomeEncloses(ps, 0, ws[l]) {
        assert ws[l] in ws;
        var p :| p in ps && Inside(ws[l], p);
        EnclosesExact(p, ws[l]);
        var k :| 0 <= k < |ps| && ps[k] == p;
        assert Encloses(ps[k], ws[l]);
      }
    }
    if ContainedFrom(ws, ps, 0, 0) {
      forall w | w in ws ensures exists p | p in ps :: Inside(w, p) {
        var l :| 0 <= l < |ws| && ws[l] == w;
        assert SomeEncloses(ps, 0, ws[l]);
        var k :| 0 <= k < |ps| && Encloses(ps[k], w);
        EnclosesExact(ps[k], w);
        assert ps[k] in ps;
      }
    }
  }

  /** On sorted plain lists this is containment of intervals. */
  lemma PlainContainmentExact(ws: seq<Region>, ps: seq<Region>)
    requires PlainList(ws) && PlainList(ps)
    ensures ContainedFrom(ws, ps, 0, 0) <==> AllContained(ws, ps)
  {
    ContainmentExact(ws, ps);
    forall w, p | w in ws && p in ps ensures Inside(w, p) <==> Contains(p, w) {
      EnclosesExact(p, w);
    }
  }

  predicate SomeArrayContains(ps: seq<Region>, i: nat, w: Region) {
    exists k | i <= k < |ps| :: ArrayContains(ps[k], w)
  }

  lemma {:induction false} ArrayContainedFromExact(ws: seq<Region>, ps: seq<Region>, j: nat, i: nat)
    requires SortedByArray(ws) && SortedByArray(ps) && j <= |ws| && i <= |ps|
    requires forall w | w in ws :: w.IsArray()
    ensures ContainedFrom(ws, ps, j, i) <==> forall l | j <= l < |ws| :: SomeArrayContains(ps, i, ws[l])
    decreases |ws| - j + |ps| - i
  {
    if j == |ws| || i == |ps| {
      assert j < |ws| ==> !SomeArrayContains(ps, i, ws[j]);
    } else if ws[j].addr < ps[i].addr {
      forall k | i <= k < |ps| ensures !ArrayContains(ps[k], ws[j]) {
        assert k > i ==> ps[i].addr <= ps[k].addr;
      }
      assert !SomeArrayContains(ps, i, ws[j]);
    } else if ps[i].addr == ws[j].addr {
      ContainedInArrayExact(ws[j], ps, i);
      ArrayContainedFromExact(ws, ps, j + 1, i);
    } else {
      ArrayContainedFromExact(ws, ps, j, i + 1);
      forall l | j <= l < |ws| ensures SomeArrayContains(ps, i, ws[l]) <==> SomeArrayContains(ps, i + 1, ws[l]) {
        assert !ArrayContains(ps[i], ws[l]);
      }
    }
  }

  /** On array arguments the walk is exact cell by cell, whatever else the other list holds. */
  lemma ArrayContainmentExact(ws: seq<Region>, ps: seq<Region>)
    requires SortedByArray(ws) && SortedByArray(ps) && forall w | w in ws :: Solid(w.dims)
    ensures ContainedFrom(ws, ps, 0, 0) <==> forall w | w in ws :: exists p | p in ps :: CellsInside(w, p)
  {
    ArrayContainedFromExact(ws, ps, 0, 0);
    forall w, p | w in ws && p in ps ensures ArrayContains(p, w) <==> CellsInside(w, p) {
      RangesContainExact(p.dims, w.dims);
    }
    assert forall l | 0 <= l < |ws| :: ws[l] in ws;
    assert forall k | 0 <= k < |ps| :: ps[k] in ps;
    if forall w | w in ws :: exists p | p in ps :: ArrayContains(p, w) {
      forall l | 0 <= l < |ws| ensures SomeArrayContains(ps, 0, ws[l]) {
        var p :| p in ps && ArrayContains(p, ws[l]);
        var k :| 0 <= k < |ps| && ps[k] == p;
        assert ArrayContains(ps[k], ws[l]);
      }
    }
    if ContainedFrom(ws, ps, 0, 0) {
      forall w | w in ws ensures exists p | p in ps :: ArrayContains(p, w) {
        var l :| 0 <= l < |ws| && ws[l] == w;
        assert SomeArrayContains(ps, 0, ws[l]);
      }
    }
  }
}
