/** The invariant holds in every state of every run that is safe for cascades. */
module Safety {
  import opened Protocol
  import opened Invariants
  import opened Steps
  import opened Finishing
  import opened Linking
  import opened Spawning
  import opened Sums

  // ----- counting children

  lemma UnsignalledPut(s: State, t: nat, x: Task, f: nat)
    requires t < |s.tasks| == |s.jobs|
    ensures Unsignalled(Put(s, t, x), f) == Unsignalled(s, f) + ChildOf(Put(s, t, x), f)(t) - ChildOf(s, f)(t)
  {
    SumChange(|s.tasks|, ChildOf(s, f), ChildOf(Put(s, t, x), f), t);
  }

  /** Nothing the count of children depends on has changed. */
  predicate SameFamily(x: Task, x': Task) {
    x'.nchildren == x.nchildren && x'.returned == x.returned
    && (x'.fin.Gone? <==> x.fin.Gone?) && (x'.fin.Unfinished? <==> x.fin.Unfinished?)
  }

  lemma PutChildren(s: State, t: nat, x: Task)
    requires ChildrenOk(s) && t < |s.tasks| == |s.jobs| && SameFamily(s.tasks[t], x)
    ensures ChildrenOk(Put(s, t, x))
  {
    forall f: nat | f < |s.tasks| ensures ChildrenAt(Put(s, t, x), f) {
      assert ChildrenAt(s, f);
      UnsignalledPut(s, t, x, f);
    }
  }

  lemma MemoryChildren(s: State, mem: Memory)
    requires ChildrenOk(s)
    ensures ChildrenOk(s.(mem := mem))
  {
    forall f: nat | f < |s.tasks| ensures ChildrenAt(s.(mem := mem), f) {
      assert ChildrenAt(s, f);
      SumSame(|s.tasks|, ChildOf(s, f), ChildOf(s.(mem := mem), f));
    }
  }

  lemma ReturnChildren(s: State, t: nat)
    requires Family(s) && Enabled(s, Return(t))
    ensures ChildrenOk(Apply(s, Return(t)))
  {
    var x' := Signalled(s.tasks[t].(returned := true), t);
    assert ChildrenAt(s, t);
    SumNonNegative(|s.tasks|, ChildOf(s, t));
    forall f: nat | f < |s.tasks| ensures ChildrenAt(Put(s, t, x'), f) {
      assert ChildrenAt(s, f);
      UnsignalledPut(s, t, x', f);
    }
  }

  lemma NotifyChildren(s: State, t: nat)
    requires Family(s) && Enabled(s, Notify(t))
    ensures ChildrenOk(DoNotify(s, t))
  {
    var g := s.jobs[t].father;
    var mid := Put(s, t, Notified(s.tasks[t]));
    assert FatherOlder(s, t);
    if g != NULL {
      FatherCounts(s, t);
    }
    forall f: nat | f < |s.tasks| ensures ChildrenAt(DoNotify(s, t), f) {
      assert ChildrenAt(s, f);
      UnsignalledPut(s, t, Notified(s.tasks[t]), f);
      if g != NULL {
        UnsignalledPut(mid, g, Signalled(s.tasks[g], s.tasks[t].fin.upto), f);
      }
    }
  }

  lemma UnsignalledAppend(s: State, job: Job, f: nat)
    requires |s.tasks| == |s.jobs|
    ensures Unsignalled(Append(s, job), f) == Unsignalled(s, f) + if job.father == f then 1 else 0
  {
    SumSame(|s.tasks|, ChildOf(s, f), ChildOf(Append(s, job), f));
  }

  lemma NoChildrenOfNew(s: State)
    requires Family(s)
    ensures Unsignalled(s, |s.tasks|) == 0
  {
    forall c: nat | c < |s.tasks| ensures ChildOf(s, |s.tasks|)(c) == 0 {
      assert FatherOlder(s, c);
    }
    SumZero(|s.tasks|, ChildOf(s, |s.tasks|));
  }

  lemma PushChildren(s: State, job: Job)
    requires Family(s) && CanPush(s, job)
    ensures ChildrenOk(DoPush(s, job))
  {
    var counted := if job.father == NULL then s else Put(s, job.father, WithChild(s.tasks[job.father]));
    NoChildrenOfNew(s);
    if job.father != NULL {
      assert ChildrenAt(s, job.father);
      SumNonNegative(|s.tasks|, ChildOf(s, job.father));
    }
    forall f: nat | f <= |s.tasks| ensures ChildrenAt(DoPush(s, job), f) {
      assert f < |s.tasks| ==> ChildrenAt(s, f);
      if job.father != NULL {
        UnsignalledPut(s, job.father, WithChild(s.tasks[job.father]), f);
      }
      UnsignalledAppend(counted, job, f);
    }
  }

  lemma LinkChildren(s: State, t: nat)
    requires Family(s) && Enabled(s, Link(t))
    ensures ChildrenOk(DoLink(s, t))
  {
    var p := s.tasks[t].at;
    PutChildren(s, p, WithDep(s.tasks[p], t));
    PutChildren(Put(s, p, WithDep(s.tasks[p], t)), t, DoLink(s, t).tasks[t]);
  }

  lemma ReleaseChildren(s: State, t: nat)
    requires Family(s) && Enabled(s, Release(t))
    ensures ChildrenOk(DoRelease(s, t))
  {
    var w := s.tasks[t].deps[s.tasks[t].fin.k];
    PutChildren(s, w, Freed(s.tasks[w]));
    PutChildren(Put(s, w, Freed(s.tasks[w])), t, DoRelease(s, t).tasks[t]);
  }

  lemma ActChildren(s: State, t: nat)
    requires Family(s) && Enabled(s, Act(t))
    ensures ChildrenOk(DoAct(s, t))
  {
    PutChildren(s, t, DoAct(s, t).tasks[t]);
    MemoryChildren(Put(s, t, DoAct(s, t).tasks[t]), DoAct(s, t).mem);
  }

  lemma OwnStepChildren(s: State, step: Step)
    requires Family(s) && Enabled(s, step)
    requires !step.Push? && !step.Link? && !step.Act? && !step.Return? && !step.Release? && !step.Notify?
    ensures ChildrenOk(Apply(s, step))
  {
    PutChildren(s, step.t, Apply(s, step).tasks[step.t]);
  }

  lemma StepKeepsChildren(s: State, step: Step)
    requires Family(s) && Enabled(s, step)
    ensures ChildrenOk(Apply(s, step))
  {
    match step
    case Push(job) => PushChildren(s, job);
    case Link(t) => LinkChildren(s, t);
    case Act(t) => ActChildren(s, t);
    case Return(t) => ReturnChildren(s, t);
    case Release(t) => ReleaseChildren(s, t);
    case Notify(t) => NotifyChildren(s, t);
    case _ => OwnStepChildren(s, step);
  }

  lemma JobsGrow(s: State, step: Step)
    requires Enabled(s, step)
    ensures |Apply(s, step).tasks| == |Apply(s, step).jobs|
    ensures s.jobs <= Apply(s, step).jobs
    ensures if step.Push? then Apply(s, step).jobs == s.jobs + [step.job] && Apply(s, step).jobs[|s.jobs|] == step.job
            else Apply(s, step).jobs == s.jobs
  {
  }

  /** Every step keeps families in order, also in states that are not safe for cascades. */
  lemma StepKeepsFamily(s: State, step: Step)
    requires Family(s) && Enabled(s, step)
    ensures Family(Apply(s, step))
  {
    var s' := Apply(s, step);
    JobsGrow(s, step);
    StepKeepsChildren(s, step);
    forall t: nat | t < |s'.jobs| ensures FatherOlder(s', t) {
      assert t < |s.jobs| ==> FatherOlder(s, t);
    }
  }

  /** A step that writes to the record of its own task only. */
  predicate WritesOwnRecord(step: Step) { !step.Push? && !step.Link? && !step.Release? && !step.Notify? }

  predicate OfScan(step: Step) {
    step.Read? || step.Match? || step.TestFill? || step.Decide? || step.Leave?
  }

  lemma OwnStepFrame(s: State, step: Step)
    requires Enabled(s, step) && WritesOwnRecord(step)
    ensures |Apply(s, step).tasks| == |s.tasks|
    ensures forall p: nat | p < |s.tasks| && p != step.t :: Apply(s, step).tasks[p] == s.tasks[p]
  {
  }

  // ----- every step

  lemma StepKeepsCore(s: State, step: Step)
    requires Inv(s) && CascadeSafe(s) && Enabled(s, step)
    ensures Core(Apply(s, step))
  {
    match step
    case Push(job) => PushKeeps(s, job);
    case Read(t) => ReadKeeps(s, t);
    case Match(t) => MatchKeeps(s, t);
    case Link(t) => LinkKeeps(s, t);
    case TestFill(t) => TestFillKeeps(s, t);
    case Decide(t) => DecideKeeps(s, t);
    case Leave(t) => LeaveKeeps(s, t);
    case Start(t) => StartKeeps(s, t);
    case Act(t) => ActKeeps(s, t);
    case Return(t) => ReturnKeeps(s, t);
    case Snapshot(t) => SnapshotKeeps(s, t);
    case WalkOn(t) => WalkOnKeeps(s, t);
    case Release(t) => ReleaseKeeps(s, t);
    case Free(t) => FreeKeeps(s, t);
    case Notify(t) => NotifyKeeps(s, t);
  }

  lemma InvIsFamily(s: State)
    requires Inv(s)
    ensures Family(s)
  {
    forall t: nat | t < |s.tasks| ensures FatherOlder(s, t) {
      assert TaskOk(s, t);
    }
  }

  /** Every step of a state that is safe for cascades keeps the invariant. */
  lemma StepKeeps(s: State, step: Step)
    requires Inv(s) && CascadeSafe(s) && Enabled(s, step)
    ensures Inv(Apply(s, step))
  {
    StepKeepsCore(s, step);
    InvIsFamily(s);
    StepKeepsFamily(s, step);
  }
}
