/** Dropping an argument of a new task once an older one covers it: exactly when. */
module Pruning {
  import opened Regions
  import opened ArgScan
  import opened Containment
  import opened Protocol

  /** The argument `w` has nothing that the older task does not: a plain one lies inside the entry in conflict byte by
      byte, one of an array inside a single entry from there on, element by element. */
  ghost predicate Swallowed(w: Region, ps: seq<Region>, k: nat)
    requires k < |ps|
  {
    if w.IsArray() then exists m | k <= m < |ps| :: CellsInside(w, ps[m]) else BytesInside(w, ps[k])
  }

  /** An argument found in conflict is dropped exactly when the entry in conflict is a writer and the argument is
      swallowed; otherwise the list stays. */
  lemma PruneExact(ps: seq<Region>, k: nat, ws: seq<Region>, l: nat)
    requires SortedByArray(ps) && k < |ps| && l < |ws| && ws[l].Proper() && Hit(ps, k, ws[l])
    ensures Prune(ps, k, ws, l) == if ps[k].wr && Swallowed(ws[l], ps, k) then ws[..l] + ws[l + 1..] else ws
  {
    var w := ws[l];
    if w.IsArray() {
      ContainedInArrayExact(w, ps, k);
      forall m | k <= m < |ps| ensures ArrayContains(ps[m], w) <==> CellsInside(w, ps[m]) {
        RangesContainExact(ps[m].dims, w.dims);
      }
    } else {
      BytesInsideExact(w, ps[k]);
    }
  }
}
