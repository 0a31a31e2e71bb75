/** The removal of finished tasks from the worklist: runs of dead nodes are unlinked in place, while other
    threads keep walking the list and finishing tasks. */
module Cleaning {
  import opened Protocol
  import opened Nodes

  class Workitem {
    var status: Status
    var next: Workitem?
  }

  function At(nodes: seq<Workitem>, i: nat): Workitem? {
    if i < |nodes| then nodes[i] else null
  }

  predicate LinkedAt(nodes: seq<Workitem>, i: nat)
    requires i < |nodes|
    reads nodes
  {
    nodes[i].next == At(nodes, i + 1)
  }

  /** The list that starts at `p` is `nodes`. */
  predicate Linked(p: Workitem?, nodes: seq<Workitem>)
    reads nodes
  {
    p == At(nodes, 0) && Distinct(nodes) && forall i: nat | i < |nodes| :: LinkedAt(nodes, i)
  }

  // ----- which nodes go

  /** `[lo, hi)` is a maximal run of dead nodes. */
  predicate Run(dead: seq<bool>, lo: nat, hi: nat) {
    && 0 < lo < hi <= |dead| && !dead[lo - 1] && (forall m | lo <= m < hi :: dead[m])
    && (hi < |dead| ==> !dead[hi])
  }

  /** A run is unlinked when it has more than four nodes or ends the list. */
  predicate Cut(dead: seq<bool>, lo: nat, hi: nat) {
    Run(dead, lo, hi) && (hi - lo > 4 || hi == |dead|)
  }

  datatype Segment = Segment(lo: nat, hi: nat)

  predicate Before(cuts: seq<Segment>, k: nat, l: nat)
    requires k < l < |cuts|
  {
    cuts[k].hi < cuts[l].lo
  }

  predicate Ascending(cuts: seq<Segment>) {
    forall k: nat, l: nat | k < l < |cuts| :: Before(cuts, k, l)
  }

  predicate CutOf(dead: seq<bool>, cuts: seq<Segment>, c: Segment) {
    c in cuts <==> Cut(dead, c.lo, c.hi)
  }

  /** `cuts` are the runs to unlink, all of them, in order. */
  ghost predicate CutsOf(dead: seq<bool>, cuts: seq<Segment>) {
    Ascending(cuts) && forall c: Segment :: CutOf(dead, cuts, c)
  }

  predicate Gone(cuts: seq<Segment>, m: nat) {
    exists c | c in cuts :: c.lo <= m < c.hi
  }

  /** Where `next` of node `m` leads once the cuts are made. */
  function Succ(cuts: seq<Segment>, m: nat): (j: nat)
    ensures if exists c | c in cuts :: c.lo == m + 1 then Segment(m + 1, j) in cuts else j == m + 1
  {
    if cuts == [] then m + 1
    else if cuts[|cuts| - 1].lo == m + 1 then cuts[|cuts| - 1].hi
    else Succ(cuts[..|cuts| - 1], m)
  }

  // ----- the runs seen so far

  predicate CutBy(dead: seq<bool>, cuts: seq<Segment>, c: Segment) {
    c in cuts <==> Run(dead, c.lo, c.hi) && c.hi - c.lo > 4 && c.hi < |dead|
  }

  /** The cuts made while the scan of the list has seen `dead`. */
  ghost predicate CutsSoFar(dead: seq<bool>, cuts: seq<Segment>) {
    Ascending(cuts) && forall c: Segment :: CutBy(dead, cuts, c)
  }

  /** Everything behind node `k`, the last one kept, is dead. */
  predicate DeadBehind(dead: seq<bool>, k: nat) {
    k < |dead| && !dead[k] && forall m | k < m < |dead| :: dead[m]
  }

  function LastKept(dead: seq<bool>, k: nat, keep: bool): nat { if keep then |dead| else k }

  lemma DeadNext(dead: seq<bool>, k: nat, keep: bool)
    requires DeadBehind(dead, k)
    ensures DeadBehind(dead + [!keep], LastKept(dead, k, keep))
  {
  }

  function WithCut(cuts: seq<Segment>, k: nat, i: nat): seq<Segment> { cuts + [Segment(k + 1, i)] }

  /** The cuts once the node behind `dead` has been judged. */
  function NewCuts(dead: seq<bool>, k: nat, keep: bool, cuts: seq<Segment>): seq<Segment> {
    if keep && |dead| - k - 1 > 4 then WithCut(cuts, k, |dead|) else cuts
  }

  lemma RunAtEnd(dead: seq<bool>, k: nat, lo: nat)
    requires DeadBehind(dead, k)
    ensures Run(dead, lo, |dead|) <==> lo == k + 1 < |dead|
  {
    if k + 1 < lo <= |dead| {
      assert dead[lo - 1];
    }
  }

  lemma RunGrows(dead: seq<bool>, x: bool, lo: nat, hi: nat)
    requires hi <= |dead|
    ensures Run(dead + [x], lo, hi) <==> Run(dead, lo, hi) && (hi == |dead| ==> !x)
  {
    if Run(dead + [x], lo, hi) {
      forall m | lo <= m < hi ensures dead[m] {
        assert (dead + [x])[m];
      }
    }
  }

  lemma CutsEndBefore(dead: seq<bool>, k: nat, cuts: seq<Segment>, c: Segment)
    requires DeadBehind(dead, k) && CutsSoFar(dead, cuts) && c in cuts
    ensures c.lo < c.hi <= k
  {
    assert CutBy(dead, cuts, c);
  }

  lemma AscendingWithCut(dead: seq<bool>, k: nat, cuts: seq<Segment>)
    requires DeadBehind(dead, k) && CutsSoFar(dead, cuts) && k + 1 < |dead|
    ensures Ascending(WithCut(cuts, k, |dead|))
  {
    var cuts' := WithCut(cuts, k, |dead|);
    forall m: nat, l: nat | m < l < |cuts'| ensures Before(cuts', m, l) {
      CutsEndBefore(dead, k, cuts, cuts[m]);
      assert l < |cuts| ==> Before(cuts, m, l);
    }
  }

  lemma CutsGrow(dead: seq<bool>, k: nat, keep: bool, cuts: seq<Segment>)
    requires DeadBehind(dead, k) && CutsSoFar(dead, cuts)
    ensures CutsSoFar(dead + [!keep], NewCuts(dead, k, keep, cuts))
  {
    var cuts', dead' := NewCuts(dead, k, keep, cuts), dead + [!keep];
    if keep && |dead| - k - 1 > 4 {
      AscendingWithCut(dead, k, cuts);
    }
    forall c: Segment ensures CutBy(dead', cuts', c) {
      assert CutBy(dead, cuts, c);
      if c.hi <= |dead| {
        RunGrows(dead, !keep, c.lo, c.hi);
        RunAtEnd(dead, k, c.lo);
      }
    }
  }

  lemma LastCut(dead: seq<bool>, k: nat, cuts: seq<Segment>)
    requires DeadBehind(dead, k) && CutsSoFar(dead, cuts)
    ensures CutsOf(dead, if k + 1 < |dead| then WithCut(cuts, k, |dead|) else cuts)
  {
    var cuts' := if k + 1 < |dead| then WithCut(cuts, k, |dead|) else cuts;
    if k + 1 < |dead| {
      AscendingWithCut(dead, k, cuts);
    }
    forall c: Segment ensures CutOf(dead, cuts', c) {
      assert CutBy(dead, cuts, c);
      RunAtEnd(dead, k, c.lo);
    }
  }

  datatype Sublist = Sublist(begin: Workitem, end: Workitem)

  /** Each sublist goes from the first to the last node of a cut. */
  predicate SublistsOf(nodes: seq<Workitem>, cuts: seq<Segment>, sublists: seq<Sublist>) {
    |sublists| == |cuts| && forall k: nat | k < |cuts| :: SublistOf(nodes, cuts[k], sublists[k])
  }

  predicate SublistOf(nodes: seq<Workitem>, c: Segment, l: Sublist) {
    c.lo < c.hi <= |nodes| && l.begin == nodes[c.lo] && l.end == nodes[c.hi - 1]
  }

  // ----- the pass over the list

  /** The nodes have these statuses and links. */
  predicate Shows(nodes: seq<Workitem>, statuses: seq<Status>, nexts: seq<Workitem?>)
    reads nodes
  {
    && |statuses| == |nodes| == |nexts|
    && forall m: nat | m < |nodes| :: nodes[m].status == statuses[m] && nodes[m].next == nexts[m]
  }

  predicate LinkAt(nodes: seq<Workitem>, cuts: seq<Segment>, nexts: seq<Workitem?>, m: nat)
    requires m < |nodes| == |nexts|
  {
    nexts[m] == At(nodes, Succ(cuts, m))
  }

  /** The `next` of every node once the cuts are made. */
  predicate LinksWith(nodes: seq<Workitem>, cuts: seq<Segment>, nexts: seq<Workitem?>) {
    |nexts| == |nodes| && forall m: nat | m < |nodes| :: LinkAt(nodes, cuts, nexts, m)
  }

  predicate Advanced(was: seq<Status>, now: seq<Status>) {
    |was| == |now| && forall m: nat | m < |was| :: was[m].Rank() <= now[m].Rank()
  }

  /** What other threads do between two steps of the pass: statuses advance. */
  method OthersRun(nodes: seq<Workitem>, ghost was: seq<Status>, ghost nexts: seq<Workitem?>)
    returns (ghost now: seq<Status>)
    requires Distinct(nodes) && Shows(nodes, was, nexts)
    modifies nodes
    ensures Shows(nodes, now, nexts) && Advanced(was, now)
  {
    now := was;
    if m: nat :| m < |nodes| && nodes[m].status.Done? {
      nodes[m].status := Deallocatable;
      now := was[m := Deallocatable];
    } else if m: nat :| m < |nodes| && nodes[m].status.Running? {
      nodes[m].status := Done;
      now := was[m := Done];
    }
  }

  /** The pass has judged node `m` rightly: what it took for dead is dead, what was dead before the pass it took
      for dead, and nodes that were `Done` and still are have been noted. */
  predicate JudgedAt(nodes: seq<Workitem>, was: seq<Status>, now: seq<Status>, dead: seq<bool>, dones: seq<Workitem>,
                     m: nat)
    requires m < |dead| <= |nodes| == |was| == |now|
  {
    && (dead[m] ==> now[m].Deallocatable?)
    && (0 < m && was[m].Deallocatable? ==> dead[m])
    && (0 < m && was[m].Done? && now[m].Done? ==> nodes[m] in dones)
  }

  /** `n` is a node behind the head that the pass has kept and that is at least `Done`. */
  predicate NotedAt(nodes: seq<Workitem>, now: seq<Status>, dead: seq<bool>, n: Workitem)
    requires |dead| <= |nodes| == |now|
  {
    exists m: nat | 0 < m < |dead| :: n == nodes[m] && !dead[m] && !now[m].Live()
  }

  /** The nodes noted are such nodes, and none is noted twice. */
  predicate Noted(nodes: seq<Workitem>, now: seq<Status>, dead: seq<bool>, dones: seq<Workitem>)
    requires |dead| <= |nodes| == |now|
  {
    Distinct(dones) && forall n | n in dones :: NotedAt(nodes, now, dead, n)
  }

  predicate Judged(nodes: seq<Workitem>, was: seq<Status>, now: seq<Status>, dead: seq<bool>, dones: seq<Workitem>) {
    && |dead| <= |nodes| == |was| && Advanced(was, now)
    && (forall m: nat | m < |dead| :: JudgedAt(nodes, was, now, dead, dones, m))
    && Noted(nodes, now, dead, dones)
  }

  lemma JudgedLater(nodes: seq<Workitem>, was: seq<Status>, now: seq<Status>, now': seq<Status>, dead: seq<bool>,
                    dones: seq<Workitem>)
    requires Judged(nodes, was, now, dead, dones) && Advanced(now, now')
    ensures Judged(nodes, was, now', dead, dones)
  {
    forall m: nat | m < |dead| ensures JudgedAt(nodes, was, now', dead, dones, m) {
      assert JudgedAt(nodes, was, now, dead, dones, m);
    }
    forall n | n in dones ensures NotedAt(nodes, now', dead, n) {
      assert NotedAt(nodes, now, dead, n);
      var m: nat :| 0 < m < |dead| && n == nodes[m] && !dead[m] && !now[m].Live();
      assert now[m].Rank() <= now'[m].Rank();
    }
  }

  lemma JudgedNext(nodes: seq<Workitem>, was: seq<Status>, now: seq<Status>, dead: seq<bool>, x: bool,
                   dones: seq<Workitem>, noted: bool)
    requires Judged(nodes, was, now, dead, dones) && 0 < |dead| < |nodes| && Distinct(nodes)
    requires noted ==> !x && !now[|dead|].Live()
    requires JudgedAt(nodes, was, now, dead + [x], NotedNext(nodes, dead, dones, noted), |dead|)
    ensures Judged(nodes, was, now, dead + [x], NotedNext(nodes, dead, dones, noted))
  {
    var dones' := NotedNext(nodes, dead, dones, noted);
    forall m: nat | m <= |dead| ensures JudgedAt(nodes, was, now, dead + [x], dones', m) {
      assert m < |dead| ==> JudgedAt(nodes, was, now, dead, dones, m);
    }
    forall n | n in dones' ensures NotedAt(nodes, now, dead + [x], n) {
      if n in dones {
        assert NotedAt(nodes, now, dead, n);
        var m: nat :| 0 < m < |dead| && n == nodes[m] && !dead[m] && !now[m].Live();
        assert n == nodes[m] && !(dead + [x])[m];
      } else {
        assert n == nodes[|dead|] && !(dead + [x])[|dead|];
      }
    }
    forall i: nat, j: nat | i < j < |dones'| ensures dones'[i] != dones'[j] {
      if j == |dones| {
        NotedBefore(nodes, now, dead, dones[i]);
      }
    }
  }

  lemma NotedBefore(nodes: seq<Workitem>, now: seq<Status>, dead: seq<bool>, n: Workitem)
    requires |dead| < |nodes| == |now| && NotedAt(nodes, now, dead, n) && Distinct(nodes)
    ensures n != nodes[|dead|]
  {
  }

  function NotedNext(nodes: seq<Workitem>, dead: seq<bool>, dones: seq<Workitem>, noted: bool): seq<Workitem>
    requires |dead| < |nodes|
  {
    if noted then dones + [nodes[|dead|]] else dones
  }

  lemma LinksWithCut(nodes: seq<Workitem>, cuts: seq<Segment>, nexts: seq<Workitem?>, k: nat, i: nat)
    requires LinksWith(nodes, cuts, nexts) && k < |nodes|
    ensures LinksWith(nodes, WithCut(cuts, k, i), nexts[k := At(nodes, i)])
  {
    assert WithCut(cuts, k, i)[..|cuts|] == cuts;
    var cuts', nexts' := WithCut(cuts, k, i), nexts[k := At(nodes, i)];
    forall m: nat | m < |nodes| ensures LinkAt(nodes, cuts', nexts', m) {
      assert LinkAt(nodes, cuts, nexts, m);
    }
  }

  /** Behind the last kept node no link has changed. */
  lemma SuccBehind(dead: seq<bool>, k: nat, cuts: seq<Segment>, m: nat)
    requires DeadBehind(dead, k) && CutsSoFar(dead, cuts) && k <= m
    ensures Succ(cuts, m) == m + 1
  {
    if Segment(m + 1, Succ(cuts, m)) in cuts {
      CutsEndBefore(dead, k, cuts, Segment(m + 1, Succ(cuts, m)));
    }
  }

  lemma LinkBehind(nodes: seq<Workitem>, nexts: seq<Workitem?>, dead: seq<bool>, k: nat, cuts: seq<Segment>, m: nat)
    requires DeadBehind(dead, k) && CutsSoFar(dead, cuts) && k <= m < |nodes| && LinksWith(nodes, cuts, nexts)
    ensures nexts[m] == At(nodes, m + 1)
  {
    SuccBehind(dead, k, cuts, m);
    assert LinkAt(nodes, cuts, nexts, m);
  }

  lemma SublistsWithCut(nodes: seq<Workitem>, cuts: seq<Segment>, sublists: seq<Sublist>, k: nat, i: nat)
    requires SublistsOf(nodes, cuts, sublists) && k + 1 < i <= |nodes|
    ensures SublistsOf(nodes, WithCut(cuts, k, i), sublists + [Sublist(nodes[k + 1], nodes[i - 1])])
  {
    assert SublistOf(nodes, Segment(k + 1, i), Sublist(nodes[k + 1], nodes[i - 1]));
    forall l: nat | l < |cuts| ensures SublistOf(nodes, cuts[l], sublists[l]) {
    }
  }

  /** Unlinks the nodes between `lastkeep` and `p`. */
  method Unlink(lastkeep: Workitem, last: Workitem, p: Workitem?, sublists: seq<Sublist>,
                ghost nodes: seq<Workitem>, ghost now: seq<Status>, ghost nexts: seq<Workitem?>,
                ghost k: nat, ghost e: nat, ghost cuts: seq<Segment>)
    returns (sublists': seq<Sublist>, ghost nexts': seq<Workitem?>)
    requires Distinct(nodes) && Shows(nodes, now, nexts) && LinksWith(nodes, cuts, nexts)
    requires SublistsOf(nodes, cuts, sublists)
    requires k < e < |nodes| && lastkeep == nodes[k] && nexts[k] == nodes[k + 1]
    requires last == nodes[e] && p == At(nodes, e + 1)
    modifies lastkeep`next
    ensures Shows(nodes, now, nexts') && LinksWith(nodes, WithCut(cuts, k, e + 1), nexts')
    ensures SublistsOf(nodes, WithCut(cuts, k, e + 1), sublists')
  {
    SublistsWithCut(nodes, cuts, sublists, k, e + 1);
    LinksWithCut(nodes, cuts, nexts, k, e + 1);
    nexts' := nexts[k := p];
    sublists' := sublists + [Sublist(lastkeep.next, last)];
    lastkeep.next := p;
  }

  /** Reads the status of `p` while others run. */
  method Visit(p: Workitem, nodes: seq<Workitem>, dones: seq<Workitem>,
               ghost was: seq<Status>, ghost now: seq<Status>, ghost nexts: seq<Workitem?>, ghost dead: seq<bool>)
    returns (keep: bool, dones': seq<Workitem>, ghost now': seq<Status>)
    requires Distinct(nodes) && Shows(nodes, now, nexts) && Judged(nodes, was, now, dead, dones)
    requires 0 < |dead| < |nodes| && p == nodes[|dead|]
    modifies nodes
    ensures Shows(nodes, now', nexts) && Judged(nodes, was, now', dead + [!keep], dones')
  {
    dones' := dones;
    now' := OthersRun(nodes, now, nexts);
    JudgedLater(nodes, was, now, now', dead, dones);
    keep := !p.status.Deallocatable?;
    ghost var noted := false;
    if keep {
      ghost var seen := now';
      now' := OthersRun(nodes, seen, nexts);
      JudgedLater(nodes, was, seen, now', dead, dones);
      if p.status.Done? {
        dones', noted := dones + [p], true;
      }
      assert was[|dead|].Rank() <= seen[|dead|].Rank();
    }
    JudgedNext(nodes, was, now', dead, !keep, dones, noted);
  }

  /** The pass has judged the nodes in `dead`, the last one kept being `k`, and has made the cuts before it. */
  ghost predicate Passed(nodes: seq<Workitem>, nexts: seq<Workitem?>, dead: seq<bool>, k: nat, cuts: seq<Segment>,
                         sublists: seq<Sublist>) {
    && |dead| <= |nodes| && DeadBehind(dead, k) && !dead[0]
    && CutsSoFar(dead, cuts) && SublistsOf(nodes, cuts, sublists) && LinksWith(nodes, cuts, nexts)
  }

  lemma PassedNext(nodes: seq<Workitem>, nexts: seq<Workitem?>, dead: seq<bool>, k: nat, keep: bool, cuts: seq<Segment>,
                   sublists: seq<Sublist>)
    requires |dead| < |nodes| && DeadBehind(dead, k) && !dead[0] && CutsSoFar(dead, cuts)
    requires LinksWith(nodes, NewCuts(dead, k, keep, cuts), nexts)
    requires SublistsOf(nodes, NewCuts(dead, k, keep, cuts), sublists)
    ensures Passed(nodes, nexts, dead + [!keep], LastKept(dead, k, keep), NewCuts(dead, k, keep, cuts), sublists)
    ensures nexts[|dead|] == At(nodes, |dead| + 1)
  {
    DeadNext(dead, k, keep);
    CutsGrow(dead, k, keep, cuts);
    LinkBehind(nodes, nexts, dead + [!keep], LastKept(dead, k, keep), NewCuts(dead, k, keep, cuts), |dead|);
  }

  /** One node further: unlinks the run of dead nodes before `p` when `p` is kept and the run is long. */
  method Turn(p: Workitem, lastkeep: Workitem, last: Workitem, deletable: nat, nodes: seq<Workitem>,
              dones: seq<Workitem>, sublists: seq<Sublist>, ghost was: seq<Status>, ghost now: seq<Status>,
              ghost nexts: seq<Workitem?>, ghost dead: seq<bool>, ghost k: nat, ghost e: nat, ghost cuts: seq<Segment>)
    returns (keep: bool, dones': seq<Workitem>, sublists': seq<Sublist>, ghost now': seq<Status>,
             ghost nexts': seq<Workitem?>, ghost cuts': seq<Segment>)
    requires Distinct(nodes) && Shows(nodes, now, nexts)
    requires Judged(nodes, was, now, dead, dones) && Passed(nodes, nexts, dead, k, cuts, sublists)
    requires |dead| < |nodes| && p == nodes[|dead|]
    requires lastkeep == nodes[k] && |dead| == e + 1 && last == nodes[e] && deletable == e - k
    modifies nodes
    ensures Shows(nodes, now', nexts') && Judged(nodes, was, now', dead + [!keep], dones')
    ensures Passed(nodes, nexts', dead + [!keep], LastKept(dead, k, keep), cuts', sublists')
    ensures p.next == At(nodes, |dead| + 1)
  {
    keep, dones', now' := Visit(p, nodes, dones, was, now, nexts, dead);
    sublists', nexts', cuts' := sublists, nexts, NewCuts(dead, k, keep, cuts);
    if keep && deletable > 4 {
      LinkBehind(nodes, nexts, dead, k, cuts, k);
      sublists', nexts' := Unlink(lastkeep, last, p, sublists, nodes, now', nexts, k, e, cuts);
    }
    PassedNext(nodes, nexts', dead, k, keep, cuts, sublists');
  }

  lemma PassedFirst(worklist: Workitem, nodes: seq<Workitem>, now: seq<Status>, nexts: seq<Workitem?>)
    requires Linked(worklist, nodes) && Shows(nodes, now, nexts)
    ensures Passed(nodes, nexts, [false], 0, [], []) && Judged(nodes, now, now, [false], [])
    ensures worklist == nodes[0] && worklist.next == At(nodes, 1)
  {
    forall m: nat | m < |nodes| ensures LinkAt(nodes, [], nexts, m) {
      assert LinkedAt(nodes, m) && nodes[m].next == nexts[m];
    }
    assert LinkedAt(nodes, 0) && JudgedAt(nodes, now, now, [false], [], 0);
  }

  /** The first part of `Clean_worklist`: unlinks the runs of dead nodes behind the head. */
  method UnlinkDead(worklist: Workitem, nodes: seq<Workitem>, ghost was: seq<Status>, ghost linked: seq<Workitem?>)
    returns (dones: seq<Workitem>, sublists: seq<Sublist>,
             ghost now: seq<Status>, ghost nexts: seq<Workitem?>, ghost dead: seq<bool>, ghost cuts: seq<Segment>)
    requires Linked(worklist, nodes) && Shows(nodes, was, linked)
    modifies nodes
    ensures Shows(nodes, now, nexts) && LinksWith(nodes, cuts, nexts)
    ensures |dead| == |nodes| && !dead[0] && CutsOf(dead, cuts) && SublistsOf(nodes, cuts, sublists)
    ensures Judged(nodes, was, now, dead, dones)
  {
    var lastkeep, last, p, deletable := worklist, worklist, worklist.next, 0;
    dones, sublists, now, nexts, dead, cuts := [], [], was, linked, [false], [];
    ghost var k: nat, e: nat := 0, 0;
    PassedFirst(worklist, nodes, now, nexts);
    while p != null
      invariant Shows(nodes, now, nexts) && Judged(nodes, was, now, dead, dones)
      invariant Passed(nodes, nexts, dead, k, cuts, sublists)
      invariant p == At(nodes, e + 1) && lastkeep == nodes[k] && |dead| == e + 1 && last == nodes[e]
      invariant deletable == e - k
      decreases |nodes| - e
    {
      var keep;
      keep, dones, sublists, now, nexts, cuts :=
        Turn(p, lastkeep, last, deletable, nodes, dones, sublists, was, now, nexts, dead, k, e, cuts);
      if keep {
        lastkeep, deletable := p, 0;
      } else {
        deletable := deletable + 1;
      }
      k := LastKept(dead, k, keep);
      last, e, dead := p, e + 1, dead + [!keep];
      p := p.next;
    }
    sublists, nexts, cuts := CutTail(lastkeep, last, nodes, sublists, now, nexts, dead, k, e, cuts);
  }

  /** Unlinks the dead nodes at the end of the list, however few. */
  method CutTail(lastkeep: Workitem, last: Workitem, ghost nodes: seq<Workitem>, sublists: seq<Sublist>,
                 ghost now: seq<Status>, ghost nexts: seq<Workitem?>, ghost dead: seq<bool>, ghost k: nat,
                 ghost e: nat, ghost cuts: seq<Segment>)
    returns (sublists': seq<Sublist>, ghost nexts': seq<Workitem?>, ghost cuts': seq<Segment>)
    requires Distinct(nodes) && Shows(nodes, now, nexts) && Passed(nodes, nexts, dead, k, cuts, sublists)
    requires lastkeep == nodes[k] && |dead| == e + 1 == |nodes| && last == nodes[e]
    modifies lastkeep`next
    ensures Shows(nodes, now, nexts') && LinksWith(nodes, cuts', nexts')
    ensures CutsOf(dead, cuts') && SublistsOf(nodes, cuts', sublists')
  {
    sublists', nexts', cuts' := sublists, nexts, cuts;
    LinkBehind(nodes, nexts, dead, k, cuts, k);
    LastCut(dead, k, cuts);
    if lastkeep.next != null {
      sublists', nexts' := Unlink(lastkeep, last, null, sublists, nodes, now, nexts, k, e, cuts);
      cuts' := WithCut(cuts, k, |dead|);
    }
  }

  // ----- what the list looks like afterwards

  /** The old list without the nodes that have been cut out, from node `m` on. */
  function Kept(nodes: seq<Workitem>, cuts: seq<Segment>, m: nat): (kept: seq<Workitem>)
    decreases |nodes| - m
  {
    if m >= |nodes| then []
    else (if Gone(cuts, m) then [] else [nodes[m]]) + Kept(nodes, cuts, m + 1)
  }

  lemma {:induction false} InKept(nodes: seq<Workitem>, cuts: seq<Segment>, m: nat, j: nat)
    requires Distinct(nodes) && j < |nodes|
    ensures nodes[j] in Kept(nodes, cuts, m) <==> m <= j && !Gone(cuts, j)
    decreases |nodes| - m
  {
    if m < |nodes| {
      InKept(nodes, cuts, m + 1, j);
      assert nodes[m] == nodes[j] ==> m == j;
    }
  }

  lemma CutsApart(cuts: seq<Segment>, k: nat, l: nat)
    requires Ascending(cuts) && k < l < |cuts|
    ensures cuts[k].hi < cuts[l].lo
  {
    assert Before(cuts, k, l);
  }

  /** A node that is cut out is in a single cut. */
  lemma InOneCut(cuts: seq<Segment>, m: nat, k: nat, l: nat)
    requires Ascending(cuts) && k < |cuts| && l < |cuts|
    requires cuts[k].lo <= m < cuts[k].hi && cuts[l].lo <= m < cuts[l].hi
    ensures k == l
  {
    if k < l {
      CutsApart(cuts, k, l);
    } else if l < k {
      CutsApart(cuts, l, k);
    }
  }

  /** Nodes are cut out exactly when they are dead and their run is long or ends the list. */
  lemma GoneExactly(dead: seq<bool>, cuts: seq<Segment>, m: nat)
    requires CutsOf(dead, cuts) && m < |dead|
    ensures Gone(cuts, m) <==> exists lo: nat, hi: nat :: Cut(dead, lo, hi) && lo <= m < hi
    ensures Gone(cuts, m) ==> 0 < m && dead[m]
  {
    if c :| c in cuts && c.lo <= m < c.hi {
      assert CutOf(dead, cuts, c);
    }
    if lo: nat, hi: nat :| Cut(dead, lo, hi) && lo <= m < hi {
      assert CutOf(dead, cuts, Segment(lo, hi));
    }
  }

  lemma SuccNotIn(dead: seq<bool>, cuts: seq<Segment>, m: nat, c: Segment)
    requires CutsOf(dead, cuts) && m < |dead| && !Gone(cuts, m) && c in cuts
    ensures !(c.lo <= Succ(cuts, m) < c.hi)
  {
    assert CutOf(dead, cuts, c) && CutOf(dead, cuts, Segment(m + 1, Succ(cuts, m)));
  }

  /** A cut is followed by a kept node, and preceded by one that now leads there. */
  lemma SuccIsKept(dead: seq<bool>, cuts: seq<Segment>, m: nat)
    requires CutsOf(dead, cuts) && m < |dead| && !Gone(cuts, m)
    ensures m < Succ(cuts, m) <= |dead| && !Gone(cuts, Succ(cuts, m))
    ensures forall j | m < j < Succ(cuts, m) :: Gone(cuts, j)
  {
    var j := Succ(cuts, m);
    assert CutOf(dead, cuts, Segment(m + 1, j));
    forall c | c in cuts ensures !(c.lo <= j < c.hi) {
      SuccNotIn(dead, cuts, m, c);
    }
  }

  lemma {:induction false} KeptFrom(nodes: seq<Workitem>, cuts: seq<Segment>, m: nat, j: nat)
    requires m <= j <= |nodes| && forall l | m <= l < j :: Gone(cuts, l)
    ensures Kept(nodes, cuts, m) == Kept(nodes, cuts, j)
    decreases j - m
  {
    if m < j {
      KeptFrom(nodes, cuts, m + 1, j);
    }
  }

  /** From any node, cut out or kept, the links still lead to every older kept node. */
  predicate Leads(nodes: seq<Workitem>, nexts: seq<Workitem?>, i: nat, j: nat)
    requires j < |nodes| == |nexts|
    decreases j - i
  {
    i == j || exists m: nat | i < m <= j :: nexts[i] == nodes[m] && Leads(nodes, nexts, m, j)
  }

  lemma {:induction false} KeptReachable(nodes: seq<Workitem>, nexts: seq<Workitem?>, dead: seq<bool>,
                                         cuts: seq<Segment>, i: nat, j: nat)
    requires |dead| == |nodes| && CutsOf(dead, cuts) && LinksWith(nodes, cuts, nexts)
    requires i <= j < |nodes| && !Gone(cuts, j)
    ensures Leads(nodes, nexts, i, j)
    decreases j - i
  {
    if i < j {
      var m := Succ(cuts, i);
      assert LinkAt(nodes, cuts, nexts, i);
      if Segment(i + 1, m) in cuts {
        assert CutOf(dead, cuts, Segment(i + 1, m));
      }
      KeptReachable(nodes, nexts, dead, cuts, m, j);
    }
  }

  /** Walking from the first node of a sublist visits its nodes one by one up to the last. */
  lemma SublistIsSegment(nodes: seq<Workitem>, nexts: seq<Workitem?>, dead: seq<bool>, cuts: seq<Segment>,
                         sublists: seq<Sublist>, k: nat, m: nat)
    requires |dead| == |nodes| && CutsOf(dead, cuts)
    requires LinksWith(nodes, cuts, nexts) && SublistsOf(nodes, cuts, sublists)
    requires k < |cuts| && cuts[k].lo <= m < cuts[k].hi
    ensures cuts[k].hi <= |nodes| && sublists[k].begin == nodes[cuts[k].lo] && sublists[k].end == nodes[cuts[k].hi - 1]
    ensures m + 1 < cuts[k].hi ==> nexts[m] == nodes[m + 1]
  {
    assert SublistOf(nodes, cuts[k], sublists[k]) && LinkAt(nodes, cuts, nexts, m) && CutOf(dead, cuts, cuts[k]);
    assert CutOf(dead, cuts, Segment(m + 1, Succ(cuts, m)));
  }

  lemma LinkedInFront(n: Workitem, p: Workitem?, rest: seq<Workitem>)
    requires n !in rest && n.next == p && Linked(p, rest)
    ensures Linked(n, [n] + rest)
  {
    var all := [n] + rest;
    forall l: nat | l < |all| ensures LinkedAt(all, l) {
      assert l > 0 ==> LinkedAt(rest, l - 1);
    }
  }

  lemma {:induction false} KeptLinked(nodes: seq<Workitem>, now: seq<Status>, nexts: seq<Workitem?>, dead: seq<bool>,
                                      cuts: seq<Segment>, m: nat)
    requires |dead| == |nodes| && CutsOf(dead, cuts) && LinksWith(nodes, cuts, nexts) && Shows(nodes, now, nexts)
    requires Distinct(nodes) && m <= |nodes| && !Gone(cuts, m)
    ensures Linked(At(nodes, m), Kept(nodes, cuts, m))
    decreases |nodes| - m
  {
    if m < |nodes| {
      var j := Succ(cuts, m);
      SuccIsKept(dead, cuts, m);
      KeptLinked(nodes, now, nexts, dead, cuts, j);
      KeptFrom(nodes, cuts, m + 1, j);
      InKept(nodes, cuts, j, m);
      assert LinkAt(nodes, cuts, nexts, m);
      LinkedInFront(nodes[m], At(nodes, j), Kept(nodes, cuts, j));
    }
  }

  /** Cleaning partitions the list: following the links from the head gives the old list in order without the nodes
      cut out, those are all `Deallocatable`, and every node that is not stays. */
  lemma CleaningPartitions(nodes: seq<Workitem>, was: seq<Status>, now: seq<Status>, nexts: seq<Workitem?>,
                           dead: seq<bool>, cuts: seq<Segment>, dones: seq<Workitem>)
    requires 0 < |dead| == |nodes| && Distinct(nodes) && !dead[0] && CutsOf(dead, cuts)
    requires LinksWith(nodes, cuts, nexts) && Shows(nodes, now, nexts) && Judged(nodes, was, now, dead, dones)
    ensures Linked(nodes[0], Kept(nodes, cuts, 0))
    ensures forall m: nat | m < |nodes| ::
              nodes[m] in Kept(nodes, cuts, 0) || (Gone(cuts, m) && nodes[m].status.Deallocatable?)
    ensures forall m: nat | m < |nodes| :: !nodes[m].status.Deallocatable? ==> nodes[m] in Kept(nodes, cuts, 0)
  {
    GoneExactly(dead, cuts, 0);
    KeptLinked(nodes, now, nexts, dead, cuts, 0);
    forall m: nat | m < |nodes|
      ensures nodes[m] in Kept(nodes, cuts, 0) || (Gone(cuts, m) && nodes[m].status.Deallocatable?) {
      GoneExactly(dead, cuts, m);
      InKept(nodes, cuts, 0, m);
      assert JudgedAt(nodes, was, now, dead, dones, m);
    }
  }
}
