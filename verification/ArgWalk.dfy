/** The walks over argument lists in the form the runtime gives them: cursors that follow `next`, and an array
    of arguments that shrinks in place. Each is proved against the function that says what it computes. */
module ArgWalk {
  import opened Regions
  import opened ArgScan
  import opened Containment
  import opened ArgList

  /** `p` is the cursor at position `i` of the list `nodes`. */
  ghost predicate CursorAt(p: ArgInfo?, nodes: seq<ArgInfo>, i: nat)
    reads nodes
  {
    i <= |nodes| && Linked(At(nodes, 0), nodes) && p == At(nodes, i)
  }

  /** `overlap_array`. */
  method FindsOverlap(w: ArgInfo, other: ArgInfo, ghost ps: seq<ArgInfo>, ghost i: nat) returns (found: bool)
    requires CursorAt(other, ps, i) && i < |ps| && other.addr == w.addr
    ensures found == OverlapArray(w.View(), Views(ps), i)
  {
    var p: ArgInfo? := other;
    ghost var k := i;
    ghost var rs, v := Views(ps), w.View();
    while p != null && p.addr == w.addr
      invariant i <= k <= |ps| && p == At(ps, k)
      invariant k == i ==> p == other
      invariant OverlapArray(v, rs, i) == (k < |rs| && rs[k].addr == v.addr && OverlapArray(v, rs, k))
      decreases |ps| - k
    {
      if Clash(p.View(), w.View()) {
        return true;
      }
      assert LinkedAt(ps, k);
      p := p.next;
      k := k + 1;
    }
    return false;
  }

  /** `is_contained_array`. */
  method FindsContainer(w: ArgInfo, other: ArgInfo, ghost ps: seq<ArgInfo>, ghost i: nat) returns (found: bool)
    requires CursorAt(other, ps, i) && i < |ps| && other.addr == w.addr
    ensures found == ContainedInArray(w.View(), Views(ps), i)
  {
    var p: ArgInfo? := other;
    ghost var k := i;
    ghost var rs, v := Views(ps), w.View();
    while p != null && p.addr == w.addr
      invariant i <= k <= |ps| && p == At(ps, k)
      invariant k == i ==> p == other
      invariant ContainedInArray(v, rs, i) == (k < |rs| && rs[k].addr == v.addr && ContainedInArray(v, rs, k))
      decreases |ps| - k
    {
      if RangesContain(p.dims, w.dims) {
        return true;
      }
      assert LinkedAt(ps, k);
      p := p.next;
      k := k + 1;
    }
    return false;
  }

  /** The arguments still to compare are `argv[0..nargs]`, followed by a null. */
  ghost predicate Holds(argv: array<ArgInfo?>, ws: seq<ArgInfo>)
    reads argv
  {
    |ws| < argv.Length && argv[|ws|] == null && forall i | 0 <= i < |ws| :: argv[i] == ws[i]
  }

  /** The inner loop of `insert_in_worklist`: the first conflict between an older list and `argv`, if any. */
  method ScanArgs(args: ArgInfo?, ghost ps: seq<ArgInfo>, argv: array<ArgInfo?>, ghost ws: seq<ArgInfo>)
    returns (argP: ArgInfo?, argWi: nat)
    requires CursorAt(args, ps, 0) && Holds(argv, ws)
    ensures match Scan(Views(ps), Views(ws))
            case None => argP == null
            case Some(hit) => argP == At(ps, hit.0) && argP != null && argWi == hit.1
  {
    ghost var rs, vs := Views(ps), Views(ws);
    argP, argWi := args, 0;
    ghost var k := 0;
    var argW := argv[0];
    while argP != null && argW != null
      invariant k <= |ps| && argWi <= |ws|
      invariant argP == At(ps, k) && argW == (if argWi < |ws| then ws[argWi] else null)
      invariant Scan(rs, vs) == ScanFrom(rs, vs, k, argWi)
      decreases |ps| - k + |ws| - argWi
    {
      var conflict;
      if argW.IsArray() {
        conflict := false;
        if argP.addr == argW.addr {
          conflict := FindsOverlap(argW, argP, ps, k);
        }
      } else {
        conflict := Conflict(argP.View(), argW.View());
      }
      if conflict {
        return;
      }
      if argP.addr < argW.addr {
        assert LinkedAt(ps, k);
        argP := argP.next;
        k := k + 1;
      } else {
        argWi := argWi + 1;
        argW := argv[argWi];
      }
    }
    argP := null;
  }

  /** Pruning: the arguments after position `i` move down by one. */
  method DropArg(argv: array<ArgInfo?>, i: nat, nargs: nat, ghost ws: seq<ArgInfo>)
    requires Holds(argv, ws) && i < |ws| == nargs
    modifies argv
    ensures Holds(argv, ws[..i] + ws[i + 1..])
  {
    var j := i;
    while j < nargs
      invariant i <= j <= nargs
      invariant forall m | 0 <= m < i :: argv[m] == ws[m]
      invariant forall m | i <= m < j :: argv[m] == if m + 1 < |ws| then ws[m + 1] else null
      invariant forall m | j <= m <= nargs :: argv[m] == if m < |ws| then ws[m] else null
    {
      argv[j] := argv[j + 1];
      j := j + 1;
    }
  }

  /** `is_contained`. */
  method IsContained(w: ArgInfo?, ghost ws: seq<ArgInfo>, ancestor: ArgInfo?, ghost ps: seq<ArgInfo>) returns (b: bool)
    requires CursorAt(w, ws, 0) && CursorAt(ancestor, ps, 0)
    ensures b == ContainedFrom(Views(ws), Views(ps), 0, 0)
  {
    ghost var j, i := 0, 0;
    ghost var vs, rs := Views(ws), Views(ps);
    var argW, argP := w, ancestor;
    while argP != null && argW != null
      invariant j <= |ws| && i <= |ps| && argW == At(ws, j) && argP == At(ps, i)
      invariant ContainedFrom(vs, rs, 0, 0) == ContainedFrom(vs, rs, j, i)
      decreases |ws| - j + |ps| - i
    {
      if argW.addr < argP.addr {
        return false;
      }
      var advance;
      if argW.IsArray() {
        advance := argP.addr == argW.addr;
        if advance {
          var inside := FindsContainer(argW, argP, ps, i);
          if !inside {
            return false;
          }
        }
      } else {
        advance := argW.addr + argW.size <= argP.addr + argP.size;
      }
      if advance {
        assert LinkedAt(ws, j);
        argW := argW.next;
        j := j + 1;
      } else {
        assert LinkedAt(ps, i);
        argP := argP.next;
        i := i + 1;
      }
    }
    return argW == null;
  }

  /** On the arguments of tasks that answers the question exactly. */
  method IsContainedExactly(w: ArgInfo?, ghost ws: seq<ArgInfo>, ancestor: ArgInfo?, ghost ps: seq<ArgInfo>)
    returns (b: bool)
    requires CursorAt(w, ws, 0) && CursorAt(ancestor, ps, 0)
    requires Arguments(Views(ws)) && Arguments(Views(ps)) && AllApart(Views(ps), Views(ws))
    ensures b <==> AllInside(Views(ws), Views(ps))
  {
    ContainmentExact(Views(ws), Views(ps));
    b := IsContained(w, ws, ancestor, ps);
  }

  /** On plain lists it is containment of intervals. */
  method IsContainedPlain(w: ArgInfo?, ghost ws: seq<ArgInfo>, ancestor: ArgInfo?, ghost ps: seq<ArgInfo>)
    returns (b: bool)
    requires CursorAt(w, ws, 0) && CursorAt(ancestor, ps, 0) && PlainList(Views(ws)) && PlainList(Views(ps))
    ensures b <==> AllContained(Views(ws), Views(ps))
  {
    PlainContainmentExact(Views(ws), Views(ps));
    b := IsContained(w, ws, ancestor, ps);
  }
}
