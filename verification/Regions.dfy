/** Memory regions named by the arguments of a task (`arg_info`), and what they mean place by place. */
module Regions {

  /** A byte of plain memory, or an element of the array at `base`. */
  datatype Place = Byte(at: int) | Cell(base: int, index: seq<int>)

  /** `dims` holds the inclusive range of each dimension of an array selection; plain regions have none. */
  datatype Region = Region(addr: nat, size: nat, wr: bool, dims: seq<(int, int)>) {
    predicate IsArray() { dims != [] }

    /** A plain region with at least one byte. */
    predicate Plain() { dims == [] && size > 0 }

    /** A plain region with at least one byte, or a selection with at least one element. */
    predicate Proper() { if IsArray() then Solid(dims) else size > 0 }
  }

  /** A selection that is empty in no dimension. */
  predicate Solid(dims: seq<(int, int)>) {
    dims != [] && forall d | 0 <= d < |dims| :: dims[d].0 <= dims[d].1
  }

  predicate InBox(cell: seq<int>, dims: seq<(int, int)>) {
    |cell| == |dims| && forall d | 0 <= d < |dims| :: dims[d].0 <= cell[d] <= dims[d].1
  }

  predicate OverlapsIntervals(s1: int, e1: int, s2: int, e2: int) {
    if s1 <= s2 then s2 <= e1 else s1 <= e2
  }

  predicate ContainsIntervals(s1: int, e1: int, s2: int, e2: int) {
    s1 <= s2 && e2 <= e1
  }

  predicate Overlaps(a: Region, b: Region) {
    OverlapsIntervals(a.addr, a.addr + a.size - 1, b.addr, b.addr + b.size - 1)
  }

  /** `a` contains `b`. */
  predicate Contains(a: Region, b: Region) {
    ContainsIntervals(a.addr, a.addr + a.size, b.addr, b.addr + b.size)
  }

  /** Selections of equal rank that meet in every dimension. */
  predicate RangesOverlap(a: seq<(int, int)>, b: seq<(int, int)>) {
    |a| == |b| && forall d | 0 <= d < |a| :: OverlapsIntervals(a[d].0, a[d].1, b[d].0, b[d].1)
  }

  predicate Covers(r: Region, place: Place) {
    if r.IsArray() then place.Cell? && place.base == r.addr && InBox(place.index, r.dims)
    else place.Byte? && r.addr <= place.at < r.addr + r.size
  }

  /** Two selections of one array that meet, one of them written. */
  predicate Clash(p: Region, w: Region) {
    (w.wr || p.wr) && RangesOverlap(w.dims, p.dims)
  }

  /** Two array entries that cannot be accessed at the same time. */
  predicate ArrayConflict(p: Region, w: Region) {
    p.addr == w.addr && Clash(p, w)
  }

  /** An old and a new argument that cannot be accessed at the same time, by the test of the code. */
  predicate Conflict(p: Region, w: Region) {
    if w.IsArray() then ArrayConflict(p, w) else (p.wr || w.wr) && Overlaps(p, w)
  }

  predicate AllPlain(rs: seq<Region>) {
    forall i | 0 <= i < |rs| :: rs[i].Plain()
  }

  /** Strictly sorted by start address. */
  predicate Sorted(rs: seq<Region>) {
    forall i, j | 0 <= i < j < |rs| :: rs[i].addr < rs[j].addr
  }

  predicate PlainList(rs: seq<Region>) {
    AllPlain(rs) && Sorted(rs)
  }

  /** Sorted by start address, where only entries of one array start together. */
  predicate InOrder(rs: seq<Region>) {
    forall i, j | 0 <= i < j < |rs| ::
      rs[i].addr < rs[j].addr || (rs[i].addr == rs[j].addr && rs[i].IsArray() && rs[j].IsArray())
  }

  predicate AllProper(rs: seq<Region>) {
    forall i | 0 <= i < |rs| :: rs[i].Proper()
  }

  /** What a task may take as arguments. */
  predicate Arguments(rs: seq<Region>) {
    AllProper(rs) && InOrder(rs)
  }

  /** A plain region and an array share no address, and selections of one array have the same rank. */
  predicate Compatible(p: Region, w: Region) {
    if p.IsArray() && w.IsArray() then p.addr == w.addr ==> |p.dims| == |w.dims|
    else p.IsArray() == w.IsArray() || (p.addr != w.addr && !Overlaps(p, w))
  }

  predicate AllCompatible(ps: seq<Region>, ws: seq<Region>) {
    forall p, w | p in ps && w in ws :: Compatible(p, w)
  }

  /** Every element of `sub` is one of `rs`. */
  predicate Within(sub: seq<Region>, rs: seq<Region>) {
    forall r | r in sub :: r in rs
  }

  /** The quadratic definition: some region of one list conflicts with some region of the other. */
  predicate Conflicts(ps: seq<Region>, ws: seq<Region>) {
    exists p, w | p in ps && w in ws :: Conflict(p, w)
  }

  /** Every region of one list lies inside some single region of the other. */
  predicate AllContained(ws: seq<Region>, ps: seq<Region>) {
    forall w | w in ws :: exists p | p in ps :: Contains(p, w)
  }

  predicate Touches(rs: seq<Region>, place: Place) {
    exists r | r in rs :: Covers(r, place)
  }

  predicate Writes(rs: seq<Region>, place: Place) {
    exists r | r in rs :: r.wr && Covers(r, place)
  }

  lemma OverlapsIffShareByte(a: Region, b: Region)
    requires a.Plain() && b.Plain()
    ensures Overlaps(a, b) <==> exists at: int :: Covers(a, Byte(at)) && Covers(b, Byte(at))
  {
    if Overlaps(a, b) {
      var at := if a.addr <= b.addr then b.addr else a.addr;
      assert Covers(a, Byte(at)) && Covers(b, Byte(at));
    }
  }

  function Corner(a: seq<(int, int)>, b: seq<(int, int)>): seq<int>
    requires |a| == |b|
  {
    seq(|a|, d requires 0 <= d < |a| => if a[d].0 <= b[d].0 then b[d].0 else a[d].0)
  }

  lemma OverlapIffShareCell(a: seq<(int, int)>, b: seq<(int, int)>)
    requires |a| == |b| && Solid(a) && Solid(b)
    ensures RangesOverlap(a, b) <==> exists cell: seq<int> :: InBox(cell, a) && InBox(cell, b)
  {
    if RangesOverlap(a, b) {
      assert InBox(Corner(a, b), a) && InBox(Corner(a, b), b);
    }
  }

  lemma ContainsIffCoversAll(a: Region, b: Region)
    requires b.Plain() && !a.IsArray()
    ensures Contains(a, b) <==> forall at: int :: Covers(b, Byte(at)) ==> Covers(a, Byte(at))
  {
    if forall at: int :: Covers(b, Byte(at)) ==> Covers(a, Byte(at)) {
      assert Covers(b, Byte(b.addr)) && Covers(b, Byte(b.addr + b.size - 1));
    }
  }

  predicate ShareAt(p: Region, w: Region, place: Place) { Covers(p, place) && Covers(w, place) }

  /** The test of the code is exact: two arguments conflict when they share a place and one is written. */
  lemma ConflictIffShare(p: Region, w: Region)
    requires p.Proper() && w.Proper() && Compatible(p, w)
    ensures Conflict(p, w) <==> (p.wr || w.wr) && exists place: Place :: ShareAt(p, w, place)
  {
    if p.IsArray() && w.IsArray() {
      if p.addr == w.addr {
        OverlapIffShareCell(w.dims, p.dims);
        if cell: seq<int> :| InBox(cell, w.dims) && InBox(cell, p.dims) {
          assert ShareAt(p, w, Cell(p.addr, cell));
        }
        if place: Place :| ShareAt(p, w, place) {
          assert InBox(place.index, w.dims) && InBox(place.index, p.dims);
        }
      }
    } else if !p.IsArray() && !w.IsArray() {
      OverlapsIffShareByte(p, w);
      if at: int :| Covers(p, Byte(at)) && Covers(w, Byte(at)) {
        assert ShareAt(p, w, Byte(at));
      }
      if place: Place :| ShareAt(p, w, place) {
        assert Covers(p, Byte(place.at)) && Covers(w, Byte(place.at));
      }
    }
  }

  /** What a list allows at one place. */
  datatype Mode = Absent | CanRead | CanWrite {
    function Max(other: Mode): Mode {
      if this == CanWrite || other == CanWrite then CanWrite
      else if this == CanRead || other == CanRead then CanRead
      else Absent
    }
  }

  function ModeAt(rs: seq<Region>, place: Place): Mode {
    if Writes(rs, place) then CanWrite else if Touches(rs, place) then CanRead else Absent
  }

  function RegionMode(r: Region, place: Place): Mode {
    if !Covers(r, place) then Absent else if r.wr then CanWrite else CanRead
  }

  /** A place touched by both lists and written by one of them. */
  predicate RaceAt(ps: seq<Region>, ws: seq<Region>, place: Place) {
    (Writes(ps, place) && Touches(ws, place)) || (Touches(ps, place) && Writes(ws, place))
  }

  /** Lists conflict exactly when some place is touched by both and written by one of them. */
  lemma ConflictsIffRace(ps: seq<Region>, ws: seq<Region>)
    requires AllProper(ps) && AllProper(ws) && AllCompatible(ps, ws)
    ensures Conflicts(ps, ws) <==> exists place: Place :: RaceAt(ps, ws, place)
  {
    if Conflicts(ps, ws) {
      var p, w :| p in ps && w in ws && Conflict(p, w);
      ConflictIffShare(p, w);
      var place: Place :| ShareAt(p, w, place);
      assert RaceAt(ps, ws, place);
    }
    if place: Place :| RaceAt(ps, ws, place) {
      RaceConflicts(ps, ws, place);
    }
  }

  lemma RaceConflicts(ps: seq<Region>, ws: seq<Region>, place: Place)
    requires AllProper(ps) && AllProper(ws) && AllCompatible(ps, ws) && RaceAt(ps, ws, place)
    ensures Conflicts(ps, ws)
  {
    var p, w :| p in ps && w in ws && Covers(p, place) && Covers(w, place) && (p.wr || w.wr);
    ConflictIffShare(p, w);
    assert ShareAt(p, w, place);
  }
}
