/** The steps that change the family of a task - spawning, returning and notifying the father - and the
    counts of children. */
module Spawning {
  import opened Protocol
  import opened Invariants
  import opened Preservation
  import opened Finishing
  import opened Sums

  // ----- spawning

  lemma AppendOrderly(s: State, job: Job)
    requires Orderly(s) && CanPush(s, job)
    ensures Orderly(Append(s, job))
  {
    var s' := Append(s, job);
    var n := |s.tasks|;
    assert Grows(s, s');
    forall i: nat | i <= n
      ensures TaskOk(s', i) && FlagTells(s', i) && WalkWaits(s', i) && Awaited(s', i) && ListedAt(s', i) {
      if i < n {
        assert TaskOk(s, i) && FlagTells(s, i) && WalkWaits(s, i) && Awaited(s, i) && ListedAt(s, i);
        FrameTask(s, s', i);
        FrameFlag(s, s', i);
        FrameWalk(s, s', i);
      }
    }
  }

  lemma NoEdgesToNew(s: State)
    requires Orderly(s)
    ensures Edges(s, |s.tasks|) == 0
  {
    forall p: nat | p < |s.tasks| ensures Links(s.tasks[p], |s.tasks|) == 0 {
      assert TaskOk(s, p);
      assert forall k | 0 <= k < |Undrained(s.tasks[p])| :: Undrained(s.tasks[p])[k] in s.tasks[p].deps;
    }
    SumZero(|s.tasks|, LinksTo(s, |s.tasks|));
  }

  lemma EdgesAppend(s: State, job: Job, i: nat)
    ensures Edges(Append(s, job), i) == Edges(s, i)
  {
    SumSame(|s.tasks|, LinksTo(s, i), LinksTo(Append(s, job), i));
  }

  lemma AppendKeeps(s: State, job: Job)
    requires Core(s) && CanPush(s, job)
    ensures Core(Append(s, job))
  {
    AppendOrderly(s, job);
    NoEdgesToNew(s);
    forall i: nat | i <= |s.tasks| ensures CounterAt(Append(s, job), i) {
      EdgesAppend(s, job, i);
      assert i < |s.tasks| ==> CounterAt(s, i);
    }
  }

  lemma WithChildKeeps(s: State, f: nat)
    requires Core(s) && f < |s.tasks|
    ensures Core(Put(s, f, WithChild(s.tasks[f])))
  {
    assert TaskOk(s, f);
    PutInPlace(s, f, WithChild(s.tasks[f]));
  }

  lemma PushKeeps(s: State, job: Job)
    requires Core(s) && CanPush(s, job)
    ensures Core(DoPush(s, job))
  {
    if job.father == NULL {
      AppendKeeps(s, job);
    } else {
      WithChildKeeps(s, job.father);
      AppendKeeps(Put(s, job.father, WithChild(s.tasks[job.father])), job);
    }
  }

  // ----- notifying the father

  function Notified(x: Task): Task { x.(fin := Gone) }

  lemma NotifiedKeeps(s: State, t: nat)
    requires Core(s) && t < |s.tasks| && s.tasks[t].fin.Signal?
    ensures Core(Put(s, t, Notified(s.tasks[t])))
  {
    assert TaskOk(s, t);
    PutFin(s, t, Notified(s.tasks[t]));
  }

  lemma SignalledKeeps(s: State, f: nat, upto: nat)
    requires Core(s) && f < |s.tasks| && HasReturned(s, upto)
    requires s.tasks[f].nchildren == 1 ==> s.tasks[f].returned && s.tasks[f].fin.Unfinished?
    ensures Core(Put(s, f, Signalled(s.tasks[f], upto)))
  {
    assert TaskOk(s, f);
    var x' := Signalled(s.tasks[f], upto);
    if s.tasks[f].nchildren == 1 {
      PutFin(s, f, x');
    } else {
      PutInPlace(s, f, x');
    }
  }

  lemma {:induction false} FatherCounts(s: State, t: nat)
    requires ChildrenOk(s) && t < |s.tasks| == |s.jobs| && !s.tasks[t].fin.Gone? && 0 <= s.jobs[t].father < |s.tasks|
    ensures var f := s.tasks[s.jobs[t].father];
            f.fin.Unfinished? && f.nchildren >= 1 && (f.nchildren == 1 ==> f.returned)
  {
    var f := s.jobs[t].father;
    assert ChildrenAt(s, f);
    SumAtLeast(|s.tasks|, ChildOf(s, f), t);
  }

  lemma NotifyKeeps(s: State, t: nat)
    requires Inv(s) && Enabled(s, Notify(t))
    ensures Core(DoNotify(s, t))
  {
    NotifiedKeeps(s, t);
    var f := s.jobs[t].father;
    assert TaskOk(s, t);
    if f != NULL {
      FatherCounts(s, t);
      SignalledKeeps(Put(s, t, Notified(s.tasks[t])), f, s.tasks[t].fin.upto);
    }
  }
}
