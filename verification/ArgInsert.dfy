/** Inserting a region into the argument list of a task, as a function on lists. */
module ArgInsert {
  import opened Regions

  /** Whether the first node after which `r` belongs is the head. */
  predicate StopsAtHead(rs: seq<Region>, r: Region)
    requires rs != []
  {
    |rs| == 1 || r.addr < rs[1].addr
  }

  function SameStart(rs: seq<Region>, r: Region): nat {
    if rs != [] && rs[0].addr == r.addr then 1 else 0
  }

  /** The list after an insertion, and whether the inserted node has been freed. */
  datatype Insertion = Insertion(list: seq<Region>, freed: bool) {
    function Behind(r: Region): Insertion { Insertion([r] + list, freed) }
  }

  /** `insert_in_arglist`. Plain regions that start together are merged; arrays are inserted replicated. */
  function Insert(rs: seq<Region>, r: Region): Insertion
    requires !r.IsArray() ==> AllPlain(rs) && r.Plain()
    decreases |rs|, SameStart(rs, r), 1
  {
    if rs == [] || r.addr < rs[0].addr then Insertion([r] + rs, false)
    else if !StopsAtHead(rs, r) then Insert(rs[1..], r).Behind(rs[0])
    else if !r.IsArray() && r.addr == rs[0].addr then Solve(rs, r)
    else Insertion([rs[0], r] + rs[1..], false)
  }

  /** The shorter of two regions that start together, with the permissions of both. */
  function Shared(o: Region, r: Region): Region
    requires o.addr == r.addr
  {
    o.(size := if r.size < o.size then r.size else o.size, wr := r.wr || o.wr)
  }

  /** What the longer one has beyond it. */
  function Beyond(o: Region, r: Region): Region
    requires o.addr == r.addr && o.Plain() && r.Plain() && o.size != r.size
    ensures Beyond(o, r).Plain() && Beyond(o, r).addr > o.addr
  {
    if r.size < o.size then r.(addr := r.addr + r.size, size := o.size - r.size, wr := o.wr)
    else r.(addr := r.addr + o.size, size := r.size - o.size)
  }

  /** `solve_overlap` of `r` with the head of the list. */
  function Solve(rs: seq<Region>, r: Region): Insertion
    requires AllPlain(rs) && r.Plain() && rs != [] && rs[0].addr == r.addr
    decreases |rs|, 1, 0
  {
    var o := rs[0];
    var orwr := r.wr || o.wr;
    if r.size == o.size then Insertion([o.(wr := orwr)] + rs[1..], true)
    else if r.size < o.size && orwr == o.wr then Insertion(rs, true)
    else if r.size > o.size && orwr == r.wr then Insertion([o.(size := r.size, wr := orwr)] + rs[1..], true)
    else Insert([Shared(o, r)] + rs[1..], Beyond(o, r))
  }

  // ----- shape

  lemma SortedInFront(o: Region, tail: seq<Region>)
    requires o.Plain() && PlainList(tail) && (tail != [] ==> o.addr < tail[0].addr)
    ensures PlainList([o] + tail)
  {
    assert forall i | 0 < i < |tail| :: tail[0].addr < tail[i].addr;
  }

  /** A plain list stays strictly sorted and loses no node; its head stays unless the new region starts before it. */
  lemma {:induction false} InsertSorted(rs: seq<Region>, r: Region)
    requires PlainList(rs) && r.Plain()
    ensures PlainList(Insert(rs, r).list)
    ensures |Insert(rs, r).list| == |rs| + if Insert(rs, r).freed then 0 else 1
    ensures Insert(rs, r).list[0].addr == if rs == [] || r.addr < rs[0].addr then r.addr else rs[0].addr
    decreases |rs|, SameStart(rs, r), 1
  {
    if rs == [] || r.addr < rs[0].addr {
      SortedInFront(r, rs);
    } else if !StopsAtHead(rs, r) {
      InsertSorted(rs[1..], r);
      SortedInFront(rs[0], Insert(rs[1..], r).list);
    } else if r.addr == rs[0].addr {
      SolveSorted(rs, r);
    } else {
    }
  }

  lemma {:induction false} SolveSorted(rs: seq<Region>, r: Region)
    requires PlainList(rs) && r.Plain() && rs != [] && rs[0].addr == r.addr
    ensures PlainList(Solve(rs, r).list) && Solve(rs, r).list != [] && Solve(rs, r).list[0].addr == r.addr
    ensures |Solve(rs, r).list| == |rs| + if Solve(rs, r).freed then 0 else 1
    decreases |rs|, 1, 0
  {
    var o := rs[0];
    if r.size != o.size && !(r.size < o.size && (r.wr || o.wr) == o.wr) && !(r.size > o.size
        && (r.wr || o.wr) == r.wr) {
      InsertSorted([Shared(o, r)] + rs[1..], Beyond(o, r));
    }
  }

  lemma InFrontOfSplit(rs: seq<Region>, r: Region, k: nat)
    requires rs != [] && k <= |rs[1..]|
    ensures [rs[0]] + (rs[1..][..k] + [r] + rs[1..][k..]) == rs[..k + 1] + [r] + rs[k + 1..]
  {
    assert rs[1..][..k] == rs[1..k + 1] && rs[1..][k..] == rs[k + 1..];
    assert rs[..k + 1] == [rs[0]] + rs[1..k + 1];
  }

  /** An array selection is added to the list whatever else is there, after all entries of the same array and
      before the next one. */
  lemma {:induction false} InsertArrayReplicates(rs: seq<Region>, r: Region) returns (k: nat)
    requires r.IsArray() && forall i, j | 0 <= i < j < |rs| :: rs[i].addr <= rs[j].addr
    ensures k <= |rs| && Insert(rs, r) == Insertion(rs[..k] + [r] + rs[k..], false)
    ensures forall i | 0 <= i < |rs| :: rs[i].addr <= r.addr <==> i < k
    decreases |rs|
  {
    if rs == [] || r.addr < rs[0].addr {
      k := 0;
    } else if !StopsAtHead(rs, r) {
      var k' := InsertArrayReplicates(rs[1..], r);
      k := k' + 1;
      var tail := rs[1..];
      assert Insert(rs, r) == Insert(tail, r).Behind(rs[0]);
      InFrontOfSplit(rs, r, k');
      assert forall i | 0 < i < |rs| :: rs[i] == tail[i - 1];
    } else {
      k := 1;
    }
  }

  // ----- permissions

  lemma ModeOfConcat(a: seq<Region>, b: seq<Region>, place: Place)
    ensures ModeAt(a + b, place) == ModeAt(a, place).Max(ModeAt(b, place))
  {
    assert forall r | r in a :: r in a + b;
    assert forall r | r in b :: r in a + b;
  }

  lemma ModeOfOne(r: Region, place: Place)
    ensures ModeAt([r], place) == RegionMode(r, place)
  {
    assert r in [r];
  }

  lemma ModeOfHead(rs: seq<Region>, place: Place)
    requires rs != []
    ensures ModeAt(rs, place) == RegionMode(rs[0], place).Max(ModeAt(rs[1..], place))
  {
    assert rs == [rs[0]] + rs[1..];
    ModeOfConcat([rs[0]], rs[1..], place);
    ModeOfOne(rs[0], place);
  }

  lemma ModeOfCons(r: Region, rs: seq<Region>, place: Place)
    ensures ModeAt([r] + rs, place) == RegionMode(r, place).Max(ModeAt(rs, place))
  {
    ModeOfConcat([r], rs, place);
    ModeOfOne(r, place);
  }

  /** Permissions are preserved exactly: at every place the new mode is the larger of the old mode and the mode
      of the inserted region, through every branch of the recursion. */
  lemma {:induction false} InsertModes(rs: seq<Region>, r: Region, place: Place)
    requires AllPlain(rs) && r.Plain()
    ensures ModeAt(Insert(rs, r).list, place) == ModeAt(rs, place).Max(RegionMode(r, place))
    decreases |rs|, SameStart(rs, r), 1
  {
    if rs == [] || r.addr < rs[0].addr {
      ModeOfCons(r, rs, place);
    } else if !StopsAtHead(rs, r) {
      InsertModes(rs[1..], r, place);
      ModeOfHead(rs, place);
      ModeOfCons(rs[0], Insert(rs[1..], r).list, place);
    } else if r.addr == rs[0].addr {
      SolveModes(rs, r, place);
    } else {
      ModeOfHead(rs, place);
      ModeOfCons(r, rs[1..], place);
      ModeOfCons(rs[0], [r] + rs[1..], place);
      assert [rs[0], r] + rs[1..] == [rs[0]] + ([r] + rs[1..]);
    }
  }

  lemma {:induction false} SolveModes(rs: seq<Region>, r: Region, place: Place)
    requires AllPlain(rs) && r.Plain() && rs != [] && rs[0].addr == r.addr
    ensures ModeAt(Solve(rs, r).list, place) == ModeAt(rs, place).Max(RegionMode(r, place))
    decreases |rs|, 1, 0
  {
    var o := rs[0];
    var orwr := r.wr || o.wr;
    ModeOfHead(rs, place);
    if r.size == o.size {
      ModeOfCons(o.(wr := orwr), rs[1..], place);
    } else if r.size < o.size && orwr == o.wr {
    } else if r.size > o.size && orwr == r.wr {
      ModeOfCons(o.(size := r.size, wr := orwr), rs[1..], place);
    } else {
      InsertModes([Shared(o, r)] + rs[1..], Beyond(o, r), place);
      ModeOfCons(Shared(o, r), rs[1..], place);
    }
  }

  // ----- the nodes, without their order

  /** Two regions that start together are one when their sizes agree or the longer one has the permission of both. */
  predicate Absorbs(a: Region, b: Region) {
    && a.addr == b.addr
    && (a.size < b.size ==> b.wr == (a.wr || b.wr))
    && (b.size < a.size ==> a.wr == (a.wr || b.wr))
  }

  datatype Extent = Extent(size: nat, wr: bool)

  type Extents = map<nat, Extent>

  /** The size and the permission of the node at each start. */
  function ByStart(rs: seq<Region>): Extents {
    if rs == [] then map[] else ByStart(rs[1..])[rs[0].addr := Extent(rs[0].size, rs[0].wr)]
  }

  ghost function From(m: Extents, start: nat): set<nat> { set k | k in m && start <= k }

  lemma FewerFrom(m: Extents, e: Extent, start: nat, later: nat)
    requires start in m && start < later
    ensures |From(m[start := e], later)| < |From(m, start)|
  {
    assert start in From(m, start) && From(m[start := e], later) <= From(m, start) - {start};
    SubsetIsSmaller(From(m[start := e], later), From(m, start) - {start});
  }

  lemma {:induction false} SubsetIsSmaller(a: set<nat>, b: set<nat>)
    requires a <= b
    ensures |a| <= |b|
    decreases |a|
  {
    if x :| x in a {
      SubsetIsSmaller(a - {x}, b - {x});
    }
  }

  /** What happens to the nodes when `[start, start + size)` is added. A new start gets a node. Where one starts there
      already, the part that both share gets both permissions, and the rest of the longer one, if that has not the
      permissions of both, is added behind. */
  function Merge(m: Extents, start: nat, size: nat, wr: bool): Extents
    requires size > 0 && forall k | k in m :: m[k].size > 0
    decreases |From(m, start)|
  {
    if start !in m then m[start := Extent(size, wr)]
    else
      var o := m[start];
      var both := wr || o.wr;
      var longer := if size < o.size then o else Extent(size, wr);
      if size == o.size || longer.wr == both then m[start := Extent(longer.size, both)]
      else
        var shared := if size < o.size then size else o.size;
        FewerFrom(m, Extent(shared, both), start, start + shared);
        Merge(m[start := Extent(shared, both)], start + shared, longer.size - shared, longer.wr)
  }

  lemma ByStartKeys(rs: seq<Region>)
    requires PlainList(rs)
    ensures forall k | k in ByStart(rs) :: ByStart(rs)[k].size > 0 && rs != [] && rs[0].addr <= k
  {
    if rs != [] {
      ByStartKeys(rs[1..]);
    }
  }

  /** Nodes before the start have no part in it. */
  lemma {:induction false} MergeBehind(m: Extents, k: nat, e: Extent, start: nat, size: nat, wr: bool)
    requires size > 0 && e.size > 0 && k < start && forall l | l in m :: m[l].size > 0
    ensures Merge(m[k := e], start, size, wr) == Merge(m, start, size, wr)[k := e]
    decreases |From(m, start)|
  {
    if start in m {
      var o := m[start];
      var both := wr || o.wr;
      var longer := if size < o.size then o else Extent(size, wr);
      var shared := if size < o.size then size else o.size;
      if size != o.size && longer.wr != both {
        FewerFrom(m, Extent(shared, both), start, start + shared);
        MergeBehind(m[start := Extent(shared, both)], k, e, start + shared, longer.size - shared, longer.wr);
        assert m[k := e][start := Extent(shared, both)] == m[start := Extent(shared, both)][k := e];
      } else {
        assert m[k := e][start := Extent(longer.size, both)] == m[start := Extent(longer.size, both)][k := e];
      }
    } else {
      assert m[k := e][start := Extent(size, wr)] == m[start := Extent(size, wr)][k := e];
    }
  }

  /** An insertion makes of the nodes what merging makes of them, wherever they are in the list. */
  lemma {:induction false} InsertMerges(rs: seq<Region>, r: Region)
    requires PlainList(rs) && r.Plain()
    ensures forall k | k in ByStart(rs) :: ByStart(rs)[k].size > 0
    ensures ByStart(Insert(rs, r).list) == Merge(ByStart(rs), r.addr, r.size, r.wr)
    decreases |rs|, SameStart(rs, r), 1
  {
    ByStartKeys(rs);
    if rs == [] || r.addr < rs[0].addr {
    } else if !StopsAtHead(rs, r) {
      ByStartKeys(rs[1..]);
      InsertMerges(rs[1..], r);
      MergeBehind(ByStart(rs[1..]), rs[0].addr, Extent(rs[0].size, rs[0].wr), r.addr, r.size, r.wr);
    } else if r.addr == rs[0].addr {
      SolveMerges(rs, r);
    } else {
      ByStartKeys(rs[1..]);
      assert ([rs[0], r] + rs[1..])[1..] == [r] + rs[1..] && ([r] + rs[1..])[1..] == rs[1..];
      MergeBehind(ByStart(rs[1..]), rs[0].addr, Extent(rs[0].size, rs[0].wr), r.addr, r.size, r.wr);
    }
  }

  lemma AbsorbedMerges(rs: seq<Region>, r: Region)
    requires PlainList(rs) && r.Plain() && rs != [] && Absorbs(rs[0], r)
    ensures forall k | k in ByStart(rs) :: ByStart(rs)[k].size > 0
    ensures ByStart(Solve(rs, r).list) == Merge(ByStart(rs), r.addr, r.size, r.wr)
  {
    ByStartKeys(rs);
    assert Solve(rs, r).list[1..] == rs[1..];
  }

  lemma SplitByStart(rs: seq<Region>, r: Region)
    requires PlainList(rs) && r.Plain() && rs != [] && rs[0].addr == r.addr && !Absorbs(rs[0], r)
    ensures PlainList([Shared(rs[0], r)] + rs[1..])
    ensures ByStart([Shared(rs[0], r)] + rs[1..]) ==
            ByStart(rs)[r.addr := Extent(Shared(rs[0], r).size, r.wr || rs[0].wr)]
  {
    assert ([Shared(rs[0], r)] + rs[1..])[1..] == rs[1..];
  }

  lemma {:induction false} SolveMerges(rs: seq<Region>, r: Region)
    requires PlainList(rs) && r.Plain() && rs != [] && rs[0].addr == r.addr
    ensures forall k | k in ByStart(rs) :: ByStart(rs)[k].size > 0
    ensures ByStart(Solve(rs, r).list) == Merge(ByStart(rs), r.addr, r.size, r.wr)
    decreases |rs|, 1, 0
  {
    ByStartKeys(rs);
    if Absorbs(rs[0], r) {
      AbsorbedMerges(rs, r);
    } else {
      SplitByStart(rs, r);
      InsertMerges([Shared(rs[0], r)] + rs[1..], Beyond(rs[0], r));
    }
  }

  // ----- the arguments of a spawn

  /** The list that `fill_args` builds from the regions of the arguments, first to last. */
  function BuildArgs(rs: seq<Region>): seq<Region>
    requires AllPlain(rs)
    ensures PlainList(BuildArgs(rs))
  {
    if rs == [] then []
    else
      var before := BuildArgs(rs[..|rs| - 1]);
      InsertSorted(before, rs[|rs| - 1]);
      Insert(before, rs[|rs| - 1]).list
  }

  /** The list of a task allows exactly what its arguments allow. */
  lemma {:induction false} BuildArgsModes(rs: seq<Region>, place: Place)
    requires AllPlain(rs)
    ensures ModeAt(BuildArgs(rs), place) == ModeAt(rs, place)
  {
    if rs != [] {
      var last := rs[|rs| - 1];
      BuildArgsModes(rs[..|rs| - 1], place);
      InsertModes(BuildArgs(rs[..|rs| - 1]), last, place);
      assert rs == rs[..|rs| - 1] + [last];
      ModeOfConcat(rs[..|rs| - 1], [last], place);
      ModeOfOne(last, place);
    }
  }

  function Starts(rs: seq<Region>): set<nat> { set r | r in rs :: r.addr }

  /** A region that starts where no other does is simply added. */
  lemma {:induction false} InsertFresh(rs: seq<Region>, r: Region)
    requires PlainList(rs) && r.Plain() && r.addr !in Starts(rs)
    ensures !Insert(rs, r).freed && Starts(Insert(rs, r).list) == Starts(rs) + {r.addr}
    decreases |rs|
  {
    if rs == [] || r.addr < rs[0].addr {
      StartsOfCons(r, rs);
    } else {
      assert rs == [rs[0]] + rs[1..];
      StartsOfCons(rs[0], rs[1..]);
      if !StopsAtHead(rs, r) {
        InsertFresh(rs[1..], r);
        StartsOfCons(rs[0], Insert(rs[1..], r).list);
      } else {
        StartsOfCons(r, rs[1..]);
        StartsOfCons(rs[0], [r] + rs[1..]);
        assert [rs[0], r] + rs[1..] == [rs[0]] + ([r] + rs[1..]);
      }
    }
  }

  lemma StartsOfCons(r: Region, rs: seq<Region>)
    ensures Starts([r] + rs) == Starts(rs) + {r.addr}
  {
    assert forall q | q in [r] + rs :: q == r || q in rs;
    assert r in [r] + rs && forall q | q in rs :: q in [r] + rs;
  }

  /** No two arguments start at the same address. */
  predicate DistinctStarts(rs: seq<Region>) {
    forall i, j | 0 <= i < j < |rs| :: rs[i].addr != rs[j].addr
  }

  /** `nargs_` is the number of arguments. The list has as many nodes when no two arguments start together, and never
      has more. */
  lemma {:induction false} NargsBoundsList(rs: seq<Region>)
    requires AllPlain(rs)
    ensures |BuildArgs(rs)| <= |rs|
    ensures DistinctStarts(rs) ==> |BuildArgs(rs)| == |rs| && Starts(BuildArgs(rs)) == Starts(rs)
  {
    if rs != [] {
      var before, last := rs[..|rs| - 1], rs[|rs| - 1];
      NargsBoundsList(before);
      InsertSorted(BuildArgs(before), last);
      if DistinctStarts(rs) {
        assert last.addr !in Starts(before);
        InsertFresh(BuildArgs(before), last);
        assert Starts(rs) == Starts(before) + {last.addr} by {
          assert rs == before + [last];
          assert forall r | r in rs :: r in before || r == last;
          assert forall r | r in before :: r in rs;
        }
      }
    }
  }

  /** Two arguments make a single node exactly when they absorb each other, in either order. */
  lemma TwoArgsExactly(a: Region, b: Region)
    requires a.Plain() && b.Plain()
    ensures |BuildArgs([a, b])| == if Absorbs(a, b) then 1 else 2
  {
    assert [a, b][..1] == [a];
    assert [a][..0] == [];
    assert BuildArgs([a]) == [a];
    assert BuildArgs([a, b]) == Insert([a], b).list;
    InsertSorted([a], b);
    if a.addr == b.addr && !Absorbs(a, b) {
      var o, rest := Shared(a, b), Beyond(a, b);
      assert [o] + [a][1..] == [o];
      assert Solve([a], b) == Insert([o], rest);
      assert !Insert([o], rest).freed;
    }
  }

  /** A write of the first bytes of what is also read: the same start, and still two nodes. */
  lemma SharedStartKeepsNodes()
    ensures var rs := [Region(0, 10, false, []), Region(0, 4, true, [])];
            !DistinctStarts(rs) && AllPlain(rs) && |BuildArgs(rs)| == |rs|
  {
    var rs := [Region(0, 10, false, []), Region(0, 4, true, [])];
    assert rs[0].addr == rs[1].addr;
    TwoArgsExactly(rs[0], rs[1]);
  }
}
