/** What steps leave in place: facts that no step undoes, and what survives a new record for one task. */
module Preservation {
  import opened Protocol
  import opened Invariants
  import opened Sums

  // ----- what no step undoes

  predicate Evolves(x: Task, x': Task) {
    && (x.status.Started() ==> x'.status.Started())
    && (x.returned ==> x'.returned)
    && (!x.status.Filling? ==> !x'.status.Filling?)
  }

  predicate EvolvesAt(s: State, s': State, p: nat)
    requires p < |s.tasks| <= |s'.tasks|
  {
    Evolves(s.tasks[p], s'.tasks[p])
  }

  ghost predicate Grows(s: State, s': State) {
    && |s.tasks| == |s.jobs| <= |s'.tasks| == |s'.jobs|
    && s.jobs <= s'.jobs
    && forall p: nat | p < |s.tasks| :: EvolvesAt(s, s', p)
  }

  lemma HeadOfUndrained(x: Task)
    requires x.fin.Drain? && x.fin.k < |x.deps|
    ensures Links(x, x.deps[x.fin.k]) > 0
  {
    assert Undrained(x)[0] == x.deps[x.fin.k];
  }

  lemma LinkedHasEdge(s: State, t: nat, w: nat)
    requires t < |s.tasks| && Links(s.tasks[t], w) > 0
    ensures Edges(s, w) > 0
  {
    SumAtLeast(|s.tasks|, LinksTo(s, w), t);
  }

  /** The task released by a draining one is waiting, never filling. */
  lemma ReleaseTarget(s: State, t: nat)
    requires Core(s) && CascadeSafe(s) && Enabled(s, Release(t))
    ensures var w := s.tasks[t].deps[s.tasks[t].fin.k]; t < w && s.tasks[w].status.Waiting? && s.tasks[w].ndeps > 0
  {
    var x := s.tasks[t];
    var w := x.deps[x.fin.k];
    HeadOfUndrained(x);
    LinkedHasEdge(s, t, w);
    assert TaskOk(s, t) && WalkWaits(s, t) && SafeFrom(s, t, w) && ListedAt(s, t);
    assert HasReturned(s, x.fin.upto);
    assert w != x.fin.upto ==> LeftFilling(s, w);
    assert TaskOk(s, w) && CounterAt(s, w);
  }

  // ----- replacing one task record

  lemma PutGrows(s: State, t: nat, x: Task)
    requires t < |s.tasks| == |s.jobs| && Evolves(s.tasks[t], x)
    ensures Grows(s, Put(s, t, x))
  {
  }

  lemma FrameTask(s: State, s': State, i: nat)
    requires Grows(s, s') && i < |s.tasks| && s'.tasks[i] == s.tasks[i] && TaskOk(s, i)
    ensures TaskOk(s', i)
  {
    var f, a, u := s.jobs[i].father, s.tasks[i].ancestor, Upto(s.tasks[i].fin);
    assert s'.jobs[i] == s.jobs[i];
    assert s.tasks[i].at != NULL ==> s'.jobs[s.tasks[i].at] == s.jobs[s.tasks[i].at];
    assert f != NULL ==> EvolvesAt(s, s', f);
    assert a != NULL ==> EvolvesAt(s, s', a);
    assert u != NULL ==> EvolvesAt(s, s', u);
  }

  lemma LeftFillingLasts(s: State, s': State, j: int)
    requires Grows(s, s') && j < |s.tasks| && LeftFilling(s, j)
    ensures LeftFilling(s', j)
  {
    assert 0 <= j ==> EvolvesAt(s, s', j);
  }

  lemma FrameFlag(s: State, s': State, i: nat)
    requires Grows(s, s') && i < |s.tasks| && FlagTells(s, i)
    requires s'.tasks[i].at >= s.tasks[i].at && (s.tasks[i].pending ==> s'.tasks[i].pending)
    ensures FlagTells(s', i)
  {
    forall j: int | s.tasks[i].at < j < i && !s.tasks[i].pending ensures LeftFilling(s', j) {
      LeftFillingLasts(s, s', j);
    }
  }

  lemma FrameWalk(s: State, s': State, i: nat)
    requires Grows(s, s') && i < |s.tasks| && s'.tasks[i].fin == s.tasks[i].fin && WalkWaits(s, i)
    requires FinOk(s.tasks[i], |s.tasks|)
    ensures WalkWaits(s', i)
  {
    var f := s.tasks[i].fin;
    if f.Walk? || f.Drain? {
      forall j: int | LeftFilling(s, j) && j <= f.head ensures LeftFilling(s', j) {
        LeftFillingLasts(s, s', j);
      }
    }
  }

  /** Everything but the counters survives a new record for `t` that is in order itself. */
  lemma PutOrderly(s: State, t: nat, x: Task)
    requires Orderly(s) && t < |s.tasks| && Evolves(s.tasks[t], x)
    requires var s' := Put(s, t, x);
             TaskOk(s', t) && FlagTells(s', t) && WalkWaits(s', t) && Awaited(s', t) && DepsListed(x)
    requires forall i: nat | i < |s.tasks| && i != t && Engaged(s.tasks[i]) && s.tasks[i].at == t :: Ahead(x.fin, i)
    ensures Orderly(Put(s, t, x))
  {
    var s' := Put(s, t, x);
    PutGrows(s, t, x);
    forall i: nat | i < |s.tasks|
      ensures TaskOk(s', i) && FlagTells(s', i) && WalkWaits(s', i) && Awaited(s', i) && ListedAt(s', i) {
      if i != t {
        assert TaskOk(s, i) && FlagTells(s, i) && WalkWaits(s, i) && Awaited(s, i) && ListedAt(s, i);
        FrameTask(s, s', i);
        FrameFlag(s, s', i);
        FrameWalk(s, s', i);
      }
    }
  }

  lemma EdgesPut(s: State, t: nat, x: Task, u: nat)
    requires t < |s.tasks|
    ensures Edges(Put(s, t, x), u) == Edges(s, u) + Links(x, u) - Links(s.tasks[t], u)
  {
    SumChange(|s.tasks|, LinksTo(s, u), LinksTo(Put(s, t, x), u), t);
  }

  lemma EdgesKept(s: State, t: nat, x: Task, u: nat)
    requires t < |s.tasks| && x.deps == s.tasks[t].deps && x.fin == s.tasks[t].fin
    ensures Edges(Put(s, t, x), u) == Edges(s, u)
  {
    EdgesPut(s, t, x, u);
  }

  /** Counters survive when the edges of the record stay and its own count still fits. */
  lemma PutCounter(s: State, t: nat, x: Task)
    requires CounterOk(s) && t < |s.tasks|
    requires Undrained(x) == Undrained(s.tasks[t])
    requires x.ndeps - BeingLinked(x) == s.tasks[t].ndeps - BeingLinked(s.tasks[t])
    ensures CounterOk(Put(s, t, x))
  {
    var s' := Put(s, t, x);
    forall i: nat | i < |s.tasks| ensures CounterAt(s', i) {
      assert CounterAt(s, i);
      EdgesPut(s, t, x, i);
    }
  }

  /** A step that leaves the position of the scan, the finishing thread and the dependants alone. */
  lemma PutInPlace(s: State, t: nat, x: Task)
    requires Core(s) && t < |s.tasks| && Evolves(s.tasks[t], x) && TaskOk(Put(s, t, x), t)
    requires x.at == s.tasks[t].at && x.pending == s.tasks[t].pending
    requires x.fin == s.tasks[t].fin && x.deps == s.tasks[t].deps
    requires Engaged(x) ==> Engaged(s.tasks[t]) || (0 <= x.at < t && s.tasks[x.at].fin.Unfinished?)
    requires x.ndeps - BeingLinked(x) == s.tasks[t].ndeps - BeingLinked(s.tasks[t])
    ensures Core(Put(s, t, x))
  {
    var s' := Put(s, t, x);
    assert TaskOk(s, t) && FlagTells(s, t) && WalkWaits(s, t) && Awaited(s, t) && ListedAt(s, t);
    PutGrows(s, t, x);
    FrameFlag(s, s', t);
    FrameWalk(s, s', t);
    forall i: nat | i < |s.tasks| && i != t && Engaged(s.tasks[i]) && s.tasks[i].at == t ensures Ahead(x.fin, i) {
      assert Awaited(s, i);
    }
    PutOrderly(s, t, x);
    PutCounter(s, t, x);
  }
}
