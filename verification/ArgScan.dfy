/** The two-pointer walk by which a new task looks for a conflict with an older one (the inner loop of
    `insert_in_worklist`), and the exact condition under which it misses none. */
module ArgScan {
  import opened Regions

  datatype Option<+T> = None | Some(value: T)

  /** `overlap_array`: the entries of `ps` from `i` on, as long as they stay on the array of `w`. */
  predicate OverlapArray(w: Region, ps: seq<Region>, i: nat)
    requires i < |ps|
    decreases |ps| - i
  {
    Clash(ps[i], w)
    || (i + 1 < |ps| && ps[i + 1].addr == w.addr && OverlapArray(w, ps, i + 1))
  }

  /** The test of one step of the walk. */
  predicate Hit(ps: seq<Region>, i: nat, w: Region)
    requires i < |ps|
  {
    if w.IsArray() then ps[i].addr == w.addr && OverlapArray(w, ps, i) else Conflict(ps[i], w)
  }

  /** The walk from `ps[i]`, `ws[j]`: the first pair it finds in conflict. */
  function ScanFrom(ps: seq<Region>, ws: seq<Region>, i: nat, j: nat): (r: Option<(nat, nat)>)
    requires i <= |ps| && j <= |ws|
    ensures r.Some? ==> i <= r.value.0 < |ps| && j <= r.value.1 < |ws| && Hit(ps, r.value.0, ws[r.value.1])
    decreases |ps| - i + |ws| - j
  {
    if i == |ps| || j == |ws| then None
    else if Hit(ps, i, ws[j]) then Some((i, j))
    else if ps[i].addr < ws[j].addr then ScanFrom(ps, ws, i + 1, j)
    else ScanFrom(ps, ws, i, j + 1)
  }

  function Scan(ps: seq<Region>, ws: seq<Region>): Option<(nat, nat)> {
    ScanFrom(ps, ws, 0, 0)
  }

  /** Where only one entry starts at an address, a step tests that entry. */
  lemma HitIsConflict(ps: seq<Region>, i: nat, w: Region)
    requires i < |ps| && Sorted(ps)
    ensures Hit(ps, i, w) <==> Conflict(ps[i], w)
  {
  }

  // ----- exactly which pairs the walk compares

  /** The walk compares `ps[i]` with `ws[j]`, unless it stops before: the predecessor of the old region starts before
      the new one, and the predecessor of the new region starts no later than the old one. */
  predicate Meets(ps: seq<Region>, ws: seq<Region>, i: nat, j: nat)
    requires i < |ps| && j < |ws|
  {
    && (i > 0 ==> ps[i - 1].addr < ws[j].addr)
    && (j > 0 ==> ws[j - 1].addr <= ps[i].addr)
  }

  /** The test of the step at `ps[k]`: a conflict with that entry, for arrays perhaps with a later one. */
  predicate ConflictsFrom(ps: seq<Region>, k: nat, w: Region)
    requires k < |ps|
  {
    if w.IsArray() then ps[k].addr == w.addr && exists m | k <= m < |ps| :: ArrayConflict(ps[m], w)
    else Conflict(ps[k], w)
  }

  /** The walk compares `ps[k]` with `ws[l]`, and they conflict. */
  predicate Found(ps: seq<Region>, ws: seq<Region>, k: nat, l: nat) {
    k < |ps| && l < |ws| && Meets(ps, ws, k, l) && ConflictsFrom(ps, k, ws[l])
  }

  lemma HitExact(ps: seq<Region>, k: nat, w: Region)
    requires SortedByArray(ps) && k < |ps|
    ensures Hit(ps, k, w) <==> ConflictsFrom(ps, k, w)
  {
    if w.IsArray() && ps[k].addr == w.addr {
      OverlapArrayExact(w, ps, k);
    }
  }

  /** For any two lists sorted by start, with repeated array entries or without: the walk reports the first of the
      conflicting pairs that meet, on either side, and none exactly when there is none. */
  lemma ScanFindsFirst(ps: seq<Region>, ws: seq<Region>)
    requires SortedByArray(ps) && SortedByArray(ws)
    ensures match Scan(ps, ws)
            case Some(hit) => Found(ps, ws, hit.0, hit.1)
                              && forall k: nat, l: nat | Found(ps, ws, k, l) :: hit.0 <= k && hit.1 <= l
            case None => forall k: nat, l: nat :: !Found(ps, ws, k, l)
  {
    ScanFromFinds(ps, ws, 0, 0);
    forall k: nat, l: nat | Found(ps, ws, k, l)
      ensures Scan(ps, ws).Some? && Scan(ps, ws).value.0 <= k && Scan(ps, ws).value.1 <= l {
      ScanFromStopsBefore(ps, ws, 0, 0, k, l);
    }
  }

  lemma {:induction false} ScanFromFinds(ps: seq<Region>, ws: seq<Region>, i: nat, j: nat)
    requires SortedByArray(ps) && SortedByArray(ws) && i <= |ps| && j <= |ws|
    requires i > 0 && j < |ws| ==> ps[i - 1].addr < ws[j].addr
    requires j > 0 && i < |ps| ==> ws[j - 1].addr <= ps[i].addr
    ensures ScanFrom(ps, ws, i, j).Some? ==>
              Found(ps, ws, ScanFrom(ps, ws, i, j).value.0, ScanFrom(ps, ws, i, j).value.1)
    decreases |ps| - i + |ws| - j
  {
    if i < |ps| && j < |ws| {
      HitExact(ps, i, ws[j]);
      if Hit(ps, i, ws[j]) {
      } else if ps[i].addr < ws[j].addr {
        ScanFromFinds(ps, ws, i + 1, j);
      } else {
        ScanFromFinds(ps, ws, i, j + 1);
      }
    }
  }

  /** The walk does not get past a conflicting pair that meets. */
  lemma {:induction false} ScanFromStopsBefore(ps: seq<Region>, ws: seq<Region>, i: nat, j: nat, k: nat, l: nat)
    requires SortedByArray(ps) && SortedByArray(ws) && i <= k && j <= l && Found(ps, ws, k, l)
    ensures ScanFrom(ps, ws, i, j).Some?
    ensures ScanFrom(ps, ws, i, j).value.0 <= k && ScanFrom(ps, ws, i, j).value.1 <= l
    decreases |ps| - i + |ws| - j
  {
    HitExact(ps, i, ws[j]);
    if !Hit(ps, i, ws[j]) {
      if ps[i].addr < ws[j].addr {
        assert i < k by {
          assert j < l ==> ws[j].addr <= ws[l - 1].addr;
        }
        ScanFromStopsBefore(ps, ws, i + 1, j, k, l);
      } else {
        assert j < l by {
          assert i < k ==> ps[i].addr <= ps[k - 1].addr;
        }
        ScanFromStopsBefore(ps, ws, i, j + 1, k, l);
      }
    }
  }

  /** On lists sorted by distinct starts, the walk reports a conflict exactly when some conflicting pair meets. */
  lemma ScanExact(ps: seq<Region>, ws: seq<Region>)
    requires Sorted(ps) && Sorted(ws)
    ensures Scan(ps, ws).Some? <==>
            exists i: nat, j: nat | i < |ps| && j < |ws| :: Conflict(ps[i], ws[j]) && Meets(ps, ws, i, j)
  {
    ScanFindsFirst(ps, ws);
    forall i: nat, j: nat | i < |ps| && j < |ws| ensures Conflict(ps[i], ws[j]) <==> ConflictsFrom(ps, i, ws[j]) {
      HitExact(ps, i, ws[j]);
      HitIsConflict(ps, i, ws[j]);
    }
    if i: nat, j: nat :| i < |ps| && j < |ws| && Conflict(ps[i], ws[j]) && Meets(ps, ws, i, j) {
      assert Found(ps, ws, i, j);
    }
  }

  // ----- when the walk agrees with the quadratic definition, whatever arguments have been dropped

  /** The walk leaves the old read `p` behind for the new read `w`, and `p` reaches the new write `w'`. */
  predicate OldShadowed(p: Region, w: Region, w': Region) {
    !p.wr && !w.wr && p.addr < w.addr < w'.addr && Conflict(p, w')
  }

  /** The walk leaves the new read `w` behind for the old read `p`, and `w` reaches the old write `p'`. */
  predicate NewShadowed(w: Region, p: Region, p': Region) {
    !w.wr && !p.wr && w.addr <= p.addr < p'.addr && Conflict(p', w)
  }

  predicate Unshadowed(ps: seq<Region>, ws: seq<Region>) {
    && (forall p, w, w' | p in ps && w in ws && w' in ws :: !OldShadowed(p, w, w'))
    && (forall w, p, p' | w in ws && p in ps && p' in ps :: !NewShadowed(w, p, p'))
  }

  /** What the walk leaves behind on the old side does not conflict with anything later. */
  lemma OldLeftBehind(p: Region, w: Region, w': Region)
    requires p.Proper() && w.Proper() && w'.Proper() && Compatible(p, w) && Compatible(p, w')
    requires p.addr < w.addr < w'.addr && !Conflict(p, w) && !OldShadowed(p, w, w')
    ensures !Conflict(p, w')
  {
  }

  lemma NewLeftBehind(w: Region, p: Region, p': Region)
    requires p.Proper() && p'.Proper() && w.Proper() && Compatible(p, w) && Compatible(p', w)
    requires w.addr <= p.addr < p'.addr && !Conflict(p, w) && !NewShadowed(w, p, p')
    ensures !Conflict(p', w)
  {
  }

  lemma SkipsOld(ps: seq<Region>, ws: seq<Region>, i: nat, j: nat, l: nat)
    requires Arguments(ps) && Arguments(ws) && AllCompatible(ps, ws) && Unshadowed(ps, ws)
    requires i < |ps| && j <= l < |ws| && !Hit(ps, i, ws[j]) && ps[i].addr < ws[j].addr
    ensures !Conflict(ps[i], ws[l])
  {
    assert Compatible(ps[i], ws[j]) && Compatible(ps[i], ws[l]) && !OldShadowed(ps[i], ws[j], ws[l]);
    if !ws[l].IsArray() && j < l {
      OldLeftBehind(ps[i], ws[j], ws[l]);
    }
  }

  lemma SkipsNew(ps: seq<Region>, ws: seq<Region>, i: nat, j: nat, k: nat)
    requires Arguments(ps) && Arguments(ws) && AllCompatible(ps, ws) && Unshadowed(ps, ws)
    requires j < |ws| && i <= k < |ps| && !Hit(ps, i, ws[j]) && ws[j].addr <= ps[i].addr
    ensures !Conflict(ps[k], ws[j])
  {
    assert Compatible(ps[i], ws[j]) && Compatible(ps[k], ws[j]) && !NewShadowed(ws[j], ps[i], ps[k]);
    if ws[j].IsArray() {
      if ps[i].addr == ws[j].addr {
        OverlapArrayExact(ws[j], ps, i);
      }
    } else if i < k && ps[i].addr < ps[k].addr {
      NewLeftBehind(ws[j], ps[i], ps[k]);
    }
  }

  lemma {:induction false} ScanFromComplete(ps: seq<Region>, ws: seq<Region>, i: nat, j: nat, k: nat, l: nat)
    requires Arguments(ps) && Arguments(ws) && AllCompatible(ps, ws) && Unshadowed(ps, ws)
    requires i <= k < |ps| && j <= l < |ws| && Conflict(ps[k], ws[l])
    ensures ScanFrom(ps, ws, i, j).Some?
    decreases |ps| - i + |ws| - j
  {
    if !Hit(ps, i, ws[j]) {
      if ps[i].addr < ws[j].addr {
        SkipsOld(ps, ws, i, j, l);
        ScanFromComplete(ps, ws, i + 1, j, k, l);
      } else {
        SkipsNew(ps, ws, i, j, k);
        ScanFromComplete(ps, ws, i, j + 1, k, l);
      }
    }
  }

  /** What a step finds is a conflict, for arrays perhaps with a later entry on the same array. */
  lemma HitConflicts(ps: seq<Region>, i: nat, w: Region)
    requires Arguments(ps) && i < |ps| && Hit(ps, i, w)
    ensures exists k | i <= k < |ps| :: Conflict(ps[k], w)
  {
    if w.IsArray() {
      OverlapArrayExact(w, ps, i);
      var k :| i <= k < |ps| && ArrayConflict(ps[k], w);
      assert Conflict(ps[k], w);
    } else {
      assert Conflict(ps[i], w);
    }
  }

  /** Soundness needs nothing; completeness needs only that no read is shadowed. */
  lemma ScanComplete(ps: seq<Region>, ws: seq<Region>)
    requires Arguments(ps) && Arguments(ws) && AllCompatible(ps, ws) && Unshadowed(ps, ws)
    ensures Scan(ps, ws).Some? <==> Conflicts(ps, ws)
  {
    if Conflicts(ps, ws) {
      var p, w :| p in ps && w in ws && Conflict(p, w);
      var k :| 0 <= k < |ps| && ps[k] == p;
      var l :| 0 <= l < |ws| && ws[l] == w;
      ScanFromComplete(ps, ws, 0, 0, k, l);
    }
    if Scan(ps, ws).Some? {
      var hit := Scan(ps, ws).value;
      HitConflicts(ps, hit.0, ws[hit.1]);
      var k :| hit.0 <= k < |ps| && Conflict(ps[k], ws[hit.1]);
      assert ps[k] in ps && ws[hit.1] in ws;
    }
  }

  /** The walk is right on every pair of sublists. */
  ghost predicate ScanRightOnSublists(ps: seq<Region>, ws: seq<Region>)
    requires Arguments(ps) && Arguments(ws)
  {
    forall ps', ws' | Arguments(ps') && Arguments(ws') && Within(ps', ps) && Within(ws', ws) ::
      (Scan(ps', ws').Some? <==> Conflicts(ps', ws'))
  }

  /** Being unshadowed is exactly what the walk needs to be right on every pair of sublists, which is what
      pruning leaves it with. */
  lemma UnshadowedExact(ps: seq<Region>, ws: seq<Region>)
    requires Arguments(ps) && Arguments(ws) && AllCompatible(ps, ws)
    ensures ScanRightOnSublists(ps, ws) <==> Unshadowed(ps, ws)
  {
    if Unshadowed(ps, ws) {
      forall ps', ws' | Arguments(ps') && Arguments(ws') && Within(ps', ps) && Within(ws', ws)
        ensures (Scan(ps', ws').Some? <==> Conflicts(ps', ws'))
      {
        ScanComplete(ps', ws');
      }
    } else if p, w, w' :| p in ps && w in ws && w' in ws && OldShadowed(p, w, w') {
      OldShadowMisses(p, w, w');
      assert Within([p], ps) && Within([w, w'], ws);
    } else {
      var w, p, p' :| w in ws && p in ps && p' in ps && NewShadowed(w, p, p');
      NewShadowMisses(w, p, p');
      assert Within([p, p'], ps) && Within([w], ws);
    }
  }

  lemma OldShadowMisses(p: Region, w: Region, w': Region)
    requires p.Proper() && w.Proper() && w'.Proper() && OldShadowed(p, w, w')
    ensures Arguments([p]) && Arguments([w, w'])
    ensures Conflicts([p], [w, w']) && Scan([p], [w, w']) == None
  {
    assert p in [p] && w' in [w, w'];
    HitIsConflict([p], 0, w);
    assert ScanFrom([p], [w, w'], 1, 0) == None;
  }

  lemma NewShadowMisses(w: Region, p: Region, p': Region)
    requires w.Proper() && p.Proper() && p'.Proper() && NewShadowed(w, p, p')
    ensures Arguments([p, p']) && Arguments([w])
    ensures Conflicts([p, p'], [w]) && Scan([p, p'], [w]) == None
  {
    assert p' in [p, p'] && w in [w];
    HitIsConflict([p, p'], 0, w);
    assert ScanFrom([p, p'], [w], 0, 1) == None;
  }

  predicate PlainOverlap(a: Region, b: Region) { !a.IsArray() && !b.IsArray() && Overlaps(a, b) }

  /** Aligned reads: the plain regions of a task are disjoint, and overlapping reads of two tasks are the same
      region. */
  predicate Aligned(ps: seq<Region>, ws: seq<Region>) {
    && (forall i, j | 0 <= i < j < |ps| :: !PlainOverlap(ps[i], ps[j]))
    && (forall i, j | 0 <= i < j < |ws| :: !PlainOverlap(ws[i], ws[j]))
    && (forall p, w | p in ps && w in ws ::
          !p.wr && !w.wr && PlainOverlap(p, w) ==> p.addr == w.addr && p.size == w.size)
  }

  lemma AlignedIsUnshadowed(ps: seq<Region>, ws: seq<Region>)
    requires Arguments(ps) && Arguments(ws) && AllCompatible(ps, ws) && Aligned(ps, ws)
    ensures Unshadowed(ps, ws)
  {
    forall p, w, w' | p in ps && w in ws && w' in ws ensures !OldShadowed(p, w, w') {
      assert Compatible(p, w) && Compatible(p, w');
      assert p.addr < w.addr < w'.addr && Conflict(p, w') ==> Overlaps(p, w);
    }
    forall w, k, k' | w in ws && 0 <= k < |ps| && 0 <= k' < |ps| ensures !NewShadowed(w, ps[k], ps[k']) {
      assert Compatible(ps[k], w) && Compatible(ps[k'], w);
      assert k < k' ==> !PlainOverlap(ps[k], ps[k']);
      assert w.addr <= ps[k].addr < ps[k'].addr && Conflict(ps[k'], w) ==> Overlaps(ps[k], w);
    }
  }

  /** An old read of [0, 100), a new read of [10, 20) and a new write of [30, 40): the walk leaves the old
      read behind at the first step and never compares it with the write. */
  lemma ShadowedReadIsMissed()
    ensures var ps := [Region(0, 100, false, [])];
            var ws := [Region(10, 10, false, []), Region(30, 10, true, [])];
            PlainList(ps) && PlainList(ws) && Conflicts(ps, ws) && Scan(ps, ws) == None
  {
    OldShadowMisses(Region(0, 100, false, []), Region(10, 10, false, []), Region(30, 10, true, []));
  }

  // ----- arrays

  /** Sorted by address, entries on one array side by side. */
  predicate SortedByArray(rs: seq<Region>) {
    forall i, j | 0 <= i < j < |rs| :: rs[i].addr <= rs[j].addr
  }

  lemma {:induction false} OverlapArrayExact(w: Region, ps: seq<Region>, i: nat)
    requires i < |ps| && ps[i].addr == w.addr && SortedByArray(ps)
    ensures OverlapArray(w, ps, i) <==> exists k | i <= k < |ps| :: ArrayConflict(ps[k], w)
    decreases |ps| - i
  {
    if i + 1 < |ps| && ps[i + 1].addr == w.addr {
      OverlapArrayExact(w, ps, i + 1);
      assert ArrayConflict(ps[i], w) <==> Clash(ps[i], w);
    } else {
      forall k | i < k < |ps| ensures ps[k].addr != w.addr {
        assert ps[i + 1].addr <= ps[k].addr;
      }
    }
  }

  lemma {:induction false} ArrayScanFromExact(ps: seq<Region>, ws: seq<Region>, i: nat, j: nat)
    requires SortedByArray(ps) && SortedByArray(ws)
    requires forall w | w in ws :: w.IsArray()
    requires i <= |ps| && j <= |ws|
    ensures ScanFrom(ps, ws, i, j).Some? <==>
            exists k, l | i <= k < |ps| && j <= l < |ws| :: ArrayConflict(ps[k], ws[l])
    decreases |ps| - i + |ws| - j
  {
    if i < |ps| && j < |ws| {
      if ps[i].addr == ws[j].addr {
        OverlapArrayExact(ws[j], ps, i);
      }
      if Hit(ps, i, ws[j]) {
      } else if ps[i].addr < ws[j].addr {
        ArrayScanFromExact(ps, ws, i + 1, j);
        forall l | j <= l < |ws| ensures !ArrayConflict(ps[i], ws[l]) {
        }
      } else {
        ArrayScanFromExact(ps, ws, i, j + 1);
        forall k | i <= k < |ps| ensures !ArrayConflict(ps[k], ws[j]) {
          assert ps[i].addr <= ps[k].addr;
        }
      }
    }
  }

  /** On array arguments the walk is right without further hypothesis. */
  lemma ArrayScanExact(ps: seq<Region>, ws: seq<Region>)
    requires SortedByArray(ps) && SortedByArray(ws)
    requires forall w | w in ws :: w.IsArray()
    ensures Scan(ps, ws).Some? <==> exists p, w | p in ps && w in ws :: ArrayConflict(p, w)
  {
    ArrayScanFromExact(ps, ws, 0, 0);
    if p, w :| p in ps && w in ws && ArrayConflict(p, w) {
      var k :| 0 <= k < |ps| && ps[k] == p;
      var l :| 0 <= l < |ws| && ws[l] == w;
      assert ArrayConflict(ps[k], ws[l]);
    }
  }
}
