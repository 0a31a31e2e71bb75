/** The steps that change two tasks at once keep the invariant. */
module Linking {
  import opened Regions
  import opened Protocol
  import opened Invariants
  import opened Preservation

  /** A new record that leaves the scan and the finishing thread where they are, whatever its counters and edges. */
  lemma PutStill(s: State, t: nat, x: Task)
    requires Orderly(s) && t < |s.tasks| && Evolves(s.tasks[t], x) && TaskOk(Put(s, t, x), t)
    requires x.at == s.tasks[t].at && x.pending == s.tasks[t].pending && x.fin == s.tasks[t].fin && DepsListed(x)
    requires Engaged(x) ==> Engaged(s.tasks[t])
    ensures Orderly(Put(s, t, x))
  {
    var s' := Put(s, t, x);
    assert TaskOk(s, t) && FlagTells(s, t) && WalkWaits(s, t) && Awaited(s, t);
    PutGrows(s, t, x);
    FrameFlag(s, s', t);
    FrameWalk(s, s', t);
    forall i: nat | i < |s.tasks| && i != t && Engaged(s.tasks[i]) && s.tasks[i].at == t ensures Ahead(x.fin, i) {
      assert Awaited(s, i);
    }
    PutOrderly(s, t, x);
  }

  // ----- linking

  function WithDep(p: Task, t: nat): Task { p.(deps := p.deps + [t]) }

  lemma WithDepUndrained(p: Task, t: nat, u: nat)
    requires p.fin.Unfinished? || p.fin.Snap? || p.fin.Walk?
    ensures Links(WithDep(p, t), u) == Links(p, u) + if u == t then 1 else 0
  {
  }

  lemma WithDepOrderly(s: State, p: nat, t: nat)
    requires Orderly(s) && p < t < |s.tasks| && Ahead(s.tasks[p].fin, t)
    ensures Orderly(Put(s, p, WithDep(s.tasks[p], t)))
  {
    assert TaskOk(s, p) && ListedAt(s, p);
    assert TaskOk(Put(s, p, WithDep(s.tasks[p], t)), p);
    PutStill(s, p, WithDep(s.tasks[p], t));
  }

  function Linked(x: Task, argv: seq<Region>): Task { x.(fill := Test, argv := argv) }

  lemma LinkedOrderly(s: State, t: nat, argv: seq<Region>)
    requires Orderly(s) && t < |s.tasks| && s.tasks[t].fill.Linking?
    requires Within(argv, s.tasks[t].argv) && Arguments(argv)
    ensures Orderly(Put(s, t, Linked(s.tasks[t], argv)))
  {
    assert TaskOk(s, t) && ListedAt(s, t);
    assert TaskOk(Put(s, t, Linked(s.tasks[t], argv)), t);
    PutStill(s, t, Linked(s.tasks[t], argv));
  }

  lemma PruneKeepsList(ps: seq<Region>, k: nat, ws: seq<Region>, l: nat)
    requires Arguments(ws) && k < |ps| && l < |ws|
    ensures Arguments(Prune(ps, k, ws, l)) && Within(Prune(ps, k, ws, l), ws)
  {
  }

  lemma LinkOrderly(s: State, t: nat)
    requires Core(s) && Enabled(s, Link(t))
    ensures Orderly(DoLink(s, t))
  {
    var x := s.tasks[t];
    assert TaskOk(s, t) && Awaited(s, t);
    WithDepOrderly(s, x.at, t);
    var argv := Prune(s.jobs[x.at].args, x.fill.k, x.argv, x.fill.l);
    PruneKeepsList(s.jobs[x.at].args, x.fill.k, x.argv, x.fill.l);
    LinkedOrderly(Put(s, x.at, WithDep(s.tasks[x.at], t)), t, argv);
  }

  lemma LinkCounterAt(s: State, p: nat, t: nat, argv: seq<Region>, i: nat)
    requires p < t < |s.tasks| && i < |s.tasks| && s.tasks[t].fill.Linking? && CounterAt(s, i)
    requires Ahead(s.tasks[p].fin, t)
    ensures CounterAt(Put(Put(s, p, WithDep(s.tasks[p], t)), t, Linked(s.tasks[t], argv)), i)
  {
    var p' := WithDep(s.tasks[p], t);
    var mid := Put(s, p, p');
    WithDepUndrained(s.tasks[p], t, i);
    EdgesPut(s, p, p', i);
    EdgesKept(mid, t, Linked(s.tasks[t], argv), i);
  }

  lemma LinkKeeps(s: State, t: nat)
    requires Core(s) && Enabled(s, Link(t))
    ensures Core(DoLink(s, t))
  {
    var x := s.tasks[t];
    LinkOrderly(s, t);
    assert TaskOk(s, t) && Awaited(s, t);
    forall i: nat | i < |s.tasks| ensures CounterAt(DoLink(s, t), i) {
      assert CounterAt(s, i);
      LinkCounterAt(s, x.at, t, Prune(s.jobs[x.at].args, x.fill.k, x.argv, x.fill.l), i);
    }
  }

  // ----- releasing

  function Freed(y: Task): Task {
    var y' := y.(ndeps := y.ndeps - 1);
    if y.ndeps == 1 then Post(y') else y'
  }

  lemma FreedOrderly(s: State, w: nat)
    requires Orderly(s) && w < |s.tasks| && s.tasks[w].status.Waiting?
    ensures Orderly(Put(s, w, Freed(s.tasks[w])))
  {
    assert TaskOk(s, w) && ListedAt(s, w);
    assert TaskOk(Put(s, w, Freed(s.tasks[w])), w);
    PutStill(s, w, Freed(s.tasks[w]));
  }

  function OneFurther(x: Task): Task
    requires x.fin.Drain?
  {
    x.(fin := x.fin.(k := x.fin.k + 1))
  }

  lemma ReleaseRecords(s: State, t: nat, w: nat)
    requires t < |s.tasks| && s.tasks[t].fin.Drain? && s.tasks[t].fin.k < |s.tasks[t].deps|
    requires w == s.tasks[t].deps[s.tasks[t].fin.k] < |s.tasks| && w != t
    ensures DoRelease(s, t) == Put(Put(s, w, Freed(s.tasks[w])), t, OneFurther(s.tasks[t]))
  {
  }

  lemma OneFurtherLinks(x: Task, u: nat)
    requires x.fin.Drain? && x.fin.k < |x.deps|
    ensures Links(OneFurther(x), u) == Links(x, u) - if u == x.deps[x.fin.k] then 1 else 0
  {
    assert Undrained(x) == [x.deps[x.fin.k]] + Undrained(OneFurther(x));
  }

  lemma OneFurtherOrderly(s: State, t: nat)
    requires Orderly(s) && t < |s.tasks| && s.tasks[t].fin.Drain? && s.tasks[t].fin.k < |s.tasks[t].deps|
    ensures Orderly(Put(s, t, OneFurther(s.tasks[t])))
  {
    var x' := OneFurther(s.tasks[t]);
    var s' := Put(s, t, x');
    assert TaskOk(s, t) && ListedAt(s, t) && FlagTells(s, t) && WalkWaits(s, t);
    assert TaskOk(s', t);
    PutGrows(s, t, x');
    FrameFlag(s, s', t);
    forall j: int | LeftFilling(s, j) && j < |s.tasks| ensures LeftFilling(s', j) {
    }
    forall i: nat | i < |s.tasks| ensures !(Engaged(s.tasks[i]) && s.tasks[i].at == t) {
      assert Awaited(s, i);
    }
    PutOrderly(s, t, x');
  }

  lemma ReleaseCounterAt(s: State, t: nat, w: nat, i: nat)
    requires t < |s.tasks| && w < |s.tasks| && i < |s.tasks| && t != w && CounterAt(s, i)
    requires s.tasks[t].fin.Drain? && s.tasks[t].fin.k < |s.tasks[t].deps| && s.tasks[t].deps[s.tasks[t].fin.k] == w
    ensures CounterAt(Put(Put(s, w, Freed(s.tasks[w])), t, OneFurther(s.tasks[t])), i)
  {
    OneFurtherLinks(s.tasks[t], i);
    EdgesKept(s, w, Freed(s.tasks[w]), i);
    EdgesPut(Put(s, w, Freed(s.tasks[w])), t, OneFurther(s.tasks[t]), i);
  }

  lemma ReleaseKeeps(s: State, t: nat)
    requires Core(s) && CascadeSafe(s) && Enabled(s, Release(t))
    ensures Core(DoRelease(s, t))
  {
    var w := s.tasks[t].deps[s.tasks[t].fin.k];
    ReleaseTarget(s, t);
    assert TaskOk(s, w);
    FreedOrderly(s, w);
    OneFurtherOrderly(Put(s, w, Freed(s.tasks[w])), t);
    forall i: nat | i < |s.tasks| ensures CounterAt(DoRelease(s, t), i) {
      assert CounterAt(s, i);
      ReleaseCounterAt(s, t, w, i);
    }
  }
}
