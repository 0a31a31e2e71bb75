/** The steps that end a task keep the invariant. */
module Finishing {
  import opened Protocol
  import opened Invariants
  import opened Preservation

  /** A step that moves on the finishing thread only. */
  lemma PutFin(s: State, t: nat, x: Task)
    requires Core(s) && t < |s.tasks| && Evolves(s.tasks[t], x) && TaskOk(Put(s, t, x), t)
    requires x.at == s.tasks[t].at && x.pending == s.tasks[t].pending && !x.status.Filling?
    requires WalkWaits(Put(s, t, x), t) && DepsListed(x)
    requires Undrained(x) == Undrained(s.tasks[t])
    requires x.ndeps == s.tasks[t].ndeps && x.fill == s.tasks[t].fill
    requires forall i: nat | i < |s.tasks| && Engaged(s.tasks[i]) && s.tasks[i].at == t && Awaited(s, i) ::
               Ahead(x.fin, i)
    ensures Core(Put(s, t, x))
  {
    var s' := Put(s, t, x);
    assert TaskOk(s, t) && FlagTells(s, t);
    PutGrows(s, t, x);
    FrameFlag(s, s', t);
    forall i: nat | i < |s.tasks| && i != t && Engaged(s.tasks[i]) && s.tasks[i].at == t ensures Ahead(x.fin, i) {
      assert Awaited(s, i);
    }
    PutOrderly(s, t, x);
    PutCounter(s, t, x);
  }

  lemma ReturnInOrder(s: State, t: nat)
    requires Core(s) && Enabled(s, Return(t))
    ensures TaskOk(Put(s, t, Signalled(s.tasks[t].(returned := true), t)), t)
  {
    assert TaskOk(s, t);
  }

  lemma ReturnKeeps(s: State, t: nat)
    requires Core(s) && Enabled(s, Return(t))
    ensures Core(Apply(s, Return(t)))
  {
    var x' := Signalled(s.tasks[t].(returned := true), t);
    assert TaskOk(s, t) && WalkWaits(s, t);
    ReturnInOrder(s, t);
    PutFin(s, t, x');
  }

  lemma SnapshotKeeps(s: State, t: nat)
    requires Core(s) && Enabled(s, Snapshot(t))
    ensures Core(Apply(s, Snapshot(t)))
  {
    assert TaskOk(s, t);
    PutFin(s, t, Apply(s, Snapshot(t)).tasks[t]);
  }

  lemma FreeKeeps(s: State, t: nat)
    requires Core(s) && Enabled(s, Free(t))
    ensures Core(Apply(s, Free(t)))
  {
    assert TaskOk(s, t);
    PutFin(s, t, Apply(s, Free(t)).tasks[t]);
  }

  /** One turn of the wait loop of `t`: it waits for everything a walk of the whole list would have passed. */
  lemma WalkTurn(s: State, t: nat)
    requires Core(s) && t < |s.tasks| && s.tasks[t].fin.Walk?
    requires var p := s.tasks[t].fin.p;
             p == NULL || p == s.tasks[t].fin.upto || (0 <= p < |s.tasks| && !s.tasks[p].status.Filling?)
    ensures TaskOk(s, t) && FinOk(s.tasks[t], |s.tasks|)
    ensures var f, f' := s.tasks[t].fin, WalkNext(s, s.tasks[t].fin);
            match f'
            case Walk(upto, head, p') => upto == f.upto && head == f.head && NULL <= p' < f.p && WalkedTo(s, p', head)
            case Drain(upto, head, k) => upto == f.upto && head == f.head && k == 0 && WalkedTo(s, upto, head)
                                         && (f.p == upto || WalkedTo(s, NULL, head))
            case _ => false
    ensures var f := s.tasks[t].fin;
            WalkNext(s, f).Drain? <==>
            f.p == NULL || f.p == f.upto || (!s.tasks[f.p].pending && !s.tasks[f.p].scape)
    ensures var f, f' := s.tasks[t].fin, WalkNext(s, s.tasks[t].fin);
            f'.Walk? ==> f'.p == if !s.tasks[f.p].pending && s.tasks[f.p].status.Live() then s.jobs[f.p].father - 1
                                 else f.p - 1
  {
    var f := s.tasks[t].fin;
    assert TaskOk(s, t) && WalkWaits(s, t);
    if f.p != NULL && f.p != f.upto {
      var q := s.tasks[f.p];
      assert TaskOk(s, f.p) && FlagTells(s, f.p);
      assert LeftFilling(s, f.p);
      if !q.pending && q.scape {
        var g := s.jobs[f.p].father;
        assert HasStarted(s, g);
        assert LeftFilling(s, g);
      }
    }
  }

  function Walked(s: State, x: Task): Task
    requires x.fin.Walk? && |s.tasks| == |s.jobs|
    requires x.fin.p == NULL || x.fin.p == x.fin.upto || 0 <= x.fin.p < |s.tasks|
  {
    x.(fin := WalkNext(s, x.fin))
  }

  /** A task that still compares with `t` keeps the walk of `t` from passing it. */
  lemma WalkStaysBehind(s: State, t: nat, i: nat)
    requires Core(s) && CascadeSafe(s) && Enabled(s, WalkOn(t)) && i < |s.tasks|
    requires Engaged(s.tasks[i]) && s.tasks[i].at == t
    ensures Ahead(WalkNext(s, s.tasks[t].fin), i)
  {
    WalkTurn(s, t);
    assert TaskOk(s, i) && Awaited(s, i) && SafeFrom(s, t, i);
    assert HasReturned(s, s.tasks[t].fin.upto) && TaskOk(s, s.tasks[t].fin.upto);
    assert !LeftFilling(s, i);
  }

  lemma WalkOnInOrder(s: State, t: nat)
    requires Core(s) && Enabled(s, WalkOn(t))
    ensures TaskOk(Put(s, t, Walked(s, s.tasks[t])), t) && WalkWaits(Put(s, t, Walked(s, s.tasks[t])), t)
  {
    var s' := Put(s, t, Walked(s, s.tasks[t]));
    WalkTurn(s, t);
    forall j: int | LeftFilling(s, j) && j < |s.tasks| ensures LeftFilling(s', j) {
    }
  }

  lemma WalkOnKeeps(s: State, t: nat)
    requires Core(s) && CascadeSafe(s) && Enabled(s, WalkOn(t))
    ensures Core(Apply(s, WalkOn(t)))
  {
    var x' := Walked(s, s.tasks[t]);
    assert TaskOk(s, t) && ListedAt(s, t);
    WalkTurn(s, t);
    WalkOnInOrder(s, t);
    forall i: nat | i < |s.tasks| && Engaged(s.tasks[i]) && s.tasks[i].at == t && Awaited(s, i)
      ensures Ahead(x'.fin, i) {
      WalkStaysBehind(s, t, i);
    }
    PutFin(s, t, x');
  }
}
