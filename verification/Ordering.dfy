/** A task never runs together with an older one that it conflicts with and that spawns nothing: it is held back by a
    live edge, by a comparison still to come, or through a task in between. */
module Ordering {
  import opened Regions
  import opened ArgScan
  import opened Containment
  import opened Protocol
  import opened Invariants
  import opened Preservation
  import opened Steps
  import opened Linking
  import opened Spawning
  import opened Shelter
  import opened Ancestry
  import opened Sums

  /** Entries of a task on one array have one permission; between tasks of which neither is an ancestor of the other,
      arrays and plain regions keep apart and no read region is shadowed; and older tasks in conflict with a child are
      in conflict with its father. */
  predicate GoodProgram(jobs: seq<Job>) {
    && (forall t | 0 <= t < |jobs| :: OnePermission(jobs[t].args))
    && (forall a: nat, b: nat | a < b < |jobs| && !Descendant(jobs, b, a) :: GoodPair(jobs[a].args, jobs[b].args))
    && (forall a: nat, c: nat | a < c < |jobs| :: Inherits(jobs, a, c))
  }

  /** What the older task `a` has against `c`, it has against the father of `c`, when that is newer than `a`. */
  predicate Inherits(jobs: seq<Job>, a: nat, c: nat)
    requires a < c < |jobs|
  {
    a < jobs[c].father < c && !Descendant(jobs, c, a) && Conflicts(jobs[a].args, jobs[c].args) ==>
      Conflicts(jobs[a].args, jobs[jobs[c].father].args)
  }

  /** A list in which entries on one array agree in their permission. */
  predicate OnePermission(rs: seq<Region>) {
    && Arguments(rs)
    && forall i, j | 0 <= i < j < |rs| :: rs[i].IsArray() && rs[i].addr == rs[j].addr ==> rs[i].wr == rs[j].wr
  }

  predicate GoodPair(ps: seq<Region>, ws: seq<Region>) { AllCompatible(ps, ws) && Unshadowed(ps, ws) }

  /** The scan of `x` has not yet compared with task `a`. */
  predicate YetToMeet(x: Task, a: nat) {
    && x.status.Filling? && !x.scape
    && (a < x.at || (a == x.at && (x.fill.Visit? || x.fill.Examine? || x.fill.Linking?)))
  }

  /** The scan of `b` will still find a conflict with `a`. */
  predicate WillFind(s: State, b: nat, a: nat)
    requires a < |s.tasks| == |s.jobs| && b < |s.tasks|
  {
    YetToMeet(s.tasks[b], a) && Conflicts(s.jobs[a].args, s.tasks[b].argv)
  }

  predicate Edge(s: State, b: nat, p: nat)
    requires p < |s.tasks|
  {
    Links(s.tasks[p], b) > 0
  }

  /** `b` waits for `p`, which conflicts with `a`. */
  predicate Through(s: State, b: nat, p: nat, a: nat)
    requires a < |s.tasks| == |s.jobs| && p < |s.tasks|
  {
    Edge(s, b, p) && Conflicts(s.jobs[a].args, s.jobs[p].args)
  }

  predicate Held(s: State, b: nat, a: nat)
    requires a < b < |s.tasks| == |s.jobs|
  {
    || Edge(s, b, a)
    || WillFind(s, b, a)
    || exists p: nat | a < p < b :: Through(s, b, p, a)
  }

  /** `b` conflicts with the older task `a`, which spawns nothing. */
  predicate Opposed(jobs: seq<Job>, b: nat, a: nat)
    requires a < b < |jobs|
  {
    Childless(jobs, a) && Conflicts(jobs[a].args, jobs[b].args)
  }

  predicate OrderedPair(s: State, b: nat, a: nat)
    requires a < b < |s.tasks| == |s.jobs|
  {
    Opposed(s.jobs, b, a) && s.tasks[a].status.Live() ==> Held(s, b, a)
  }

  predicate Ordered(s: State)
    requires |s.tasks| == |s.jobs|
  {
    forall a: nat, b: nat | a < b < |s.tasks| :: OrderedPair(s, b, a)
  }

  // ----- a posted task has nothing to wait for

  lemma NoEdgeOfPosted(s: State, b: nat, p: nat)
    requires Core(s) && b < |s.tasks| && p < |s.tasks| && s.tasks[b].status.Posted()
    ensures !Edge(s, b, p)
  {
    assert TaskOk(s, b) && CounterAt(s, b);
    SumAtLeast(|s.tasks|, LinksTo(s, b), p);
  }

  lemma PostedMeansClear(s: State, b: nat, a: nat)
    requires Core(s) && Ordered(s) && a < b < |s.tasks|
    requires s.tasks[b].status.Posted() && Opposed(s.jobs, b, a)
    ensures !s.tasks[a].status.Live()
  {
    assert OrderedPair(s, b, a);
    NoEdgeOfPosted(s, b, a);
    forall p: nat | a < p < b ensures !Through(s, b, p, a) {
      NoEdgeOfPosted(s, b, p);
    }
  }

  // ----- steps

  lemma HeldFrame(s: State, s': State, b: nat, a: nat)
    requires a < b < |s.tasks| == |s.jobs| == |s'.tasks| && s'.jobs == s.jobs && Held(s, b, a)
    requires forall p: nat | a <= p < b && Edge(s, b, p) :: Edge(s', b, p)
    requires WillFind(s, b, a) ==> Held(s', b, a)
    ensures Held(s', b, a)
  {
    if p: nat :| a < p < b && Through(s, b, p, a) {
      assert Through(s', b, p, a);
    }
  }

  /** A new record for `t` that keeps its edges and loses no comparison with a live task. */
  lemma PutOrdered(s: State, t: nat, x: Task)
    requires t < |s.tasks| == |s.jobs| && Ordered(s)
    requires forall u: nat :: Links(x, u) >= Links(s.tasks[t], u)
    requires x.status.Live() ==> s.tasks[t].status.Live()
    requires forall a: nat | a < t && Childless(s.jobs, a) && s.tasks[a].status.Live() && WillFind(s, t, a) ::
               WillFind(Put(s, t, x), t, a)
    ensures Ordered(Put(s, t, x))
  {
    var s' := Put(s, t, x);
    forall a: nat, b: nat | a < b < |s.tasks| ensures OrderedPair(s', b, a) {
      assert OrderedPair(s, b, a);
      if Opposed(s.jobs, b, a) && s'.tasks[a].status.Live() {
        assert s.tasks[a].status.Live();
        assert forall p: nat | p < |s.tasks| && Edge(s, b, p) :: Edge(s', b, p);
        assert WillFind(s, b, a) ==> WillFind(s', b, a);
        HeldFrame(s, s', b, a);
      }
    }
  }

  lemma GoodWithin(ps: seq<Region>, ws: seq<Region>, ws': seq<Region>)
    requires GoodPair(ps, ws) && Within(ws', ws)
    ensures GoodPair(ps, ws')
  {
    forall p, w | p in ps && w in ws' ensures Compatible(p, w) {
      assert w in ws;
    }
    forall p, w, w' | p in ps && w in ws' && w' in ws' ensures !OldShadowed(p, w, w') {
      assert w in ws && w' in ws;
    }
  }

  /** A comparison that finds nothing has nothing to find, whatever has been pruned. */
  lemma NothingMissed(s: State, t: nat)
    requires Inv(s) && Tidy(s) && GoodProgram(s.jobs) && InScan(s, t, Examine)
    requires Scan(s.jobs[s.tasks[t].at].args, s.tasks[t].argv).None?
    ensures s.tasks[t].at < t && !Conflicts(s.jobs[s.tasks[t].at].args, s.tasks[t].argv)
  {
    var p := s.tasks[t].at;
    assert TaskOk(s, t) && PathAt(s, t);
    LooksAtNoAncestor(s, t);
    assert GoodPair(s.jobs[p].args, s.jobs[t].args);
    GoodWithin(s.jobs[p].args, s.jobs[t].args, s.tasks[t].argv);
    assert OnePermission(s.jobs[p].args) && OnePermission(s.jobs[t].args);
    ScanComplete(s.jobs[p].args, s.tasks[t].argv);
  }

  /** A task that spawns nothing is no ancestor. */
  lemma ChildlessIsNoAncestor(s: State, t: nat, a: nat)
    requires t < |s.tasks| == |s.jobs| && PathAt(s, t) && Childless(s.jobs, a)
    ensures s.tasks[t].ancestor != a && !Descendant(s.jobs, t, a)
  {
    if Descendant(s.jobs, t, a) {
      AncestorHasChild(s.jobs, t, a);
    }
  }

  /** When the scan ends at an ancestor, whatever conflicts with the task and lies behind has finished, since the
      father has started. */
  lemma EscapeMissesNothing(s: State, t: nat, a: nat)
    requires Inv(s) && Tidy(s) && GoodProgram(s.jobs) && Ordered(s) && a < t < |s.tasks|
    requires s.tasks[t].ancestor == s.tasks[t].at && a <= s.tasks[t].at && Opposed(s.jobs, t, a)
    ensures !s.tasks[a].status.Live()
  {
    var f := s.jobs[t].father;
    assert TaskOk(s, t) && PathAt(s, t) && Inherits(s.jobs, a, t);
    ChildlessIsNoAncestor(s, t, a);
    assert HasStarted(s, f);
    PostedMeansClear(s, f, a);
  }

  lemma ReadOrdered(s: State, t: nat)
    requires Inv(s) && Tidy(s) && GoodProgram(s.jobs) && Ordered(s) && InScan(s, t, Visit) && !s.tasks[t].scape
    ensures Ordered(DoRead(s, t))
  {
    var x' := DoRead(s, t).tasks[t];
    assert TaskOk(s, t) && PathAt(s, t);
    ReadRecord(s, t);
    forall a: nat | a < t && Childless(s.jobs, a) && s.tasks[a].status.Live() && WillFind(s, t, a)
      ensures WillFind(Put(s, t, x'), t, a) {
      ChildlessIsNoAncestor(s, t, a);
      if x'.scape {
        WillFindIsOpposed(s, t, a);
        EscapeMissesNothing(s, t, a);
      }
    }
    PutOrdered(s, t, x');
  }

  lemma WillFindIsOpposed(s: State, t: nat, a: nat)
    requires a < t < |s.tasks| == |s.jobs| && TaskOk(s, t) && WillFind(s, t, a) && Childless(s.jobs, a)
    ensures Opposed(s.jobs, t, a)
  {
    var p, w :| p in s.jobs[a].args && w in s.tasks[t].argv && Conflict(p, w);
    assert w in s.jobs[t].args;
  }

  lemma MatchOrdered(s: State, t: nat)
    requires Inv(s) && Tidy(s) && GoodProgram(s.jobs) && Ordered(s) && InScan(s, t, Examine)
    ensures Ordered(DoMatch(s, t))
  {
    if Scan(s.jobs[s.tasks[t].at].args, s.tasks[t].argv).None? {
      NothingMissed(s, t);
    }
    PutOrdered(s, t, DoMatch(s, t).tasks[t]);
  }

  lemma TestOrdered(s: State, t: nat)
    requires Core(s) && GoodProgram(s.jobs) && Ordered(s) && InScan(s, t, Test)
    ensures Ordered(DoTest(s, t))
  {
    PutOrdered(s, t, DoTest(s, t).tasks[t]);
  }

  /** Whatever conflicts with what a writer covers conflicts with the writer. */
  lemma CoveredConflicts(q: Region, p: Region, w: Region)
    requires q.Proper() && p.Proper() && w.Proper() && Compatible(p, w) && Compatible(q, w)
    requires Conflict(q, w) && p.wr && (w.IsArray() ==> p.addr == w.addr) && (!w.IsArray() ==> Overlaps(p, w))
    requires if w.IsArray() then RangesContain(p.dims, w.dims) else Contains(p, w)
    ensures Conflict(q, p)
  {
  }

  /** The entry that covers a pruned argument writes it. */
  lemma Coverer(ps: seq<Region>, k: nat, w: Region) returns (p: Region)
    requires OnePermission(ps) && k < |ps| && w.Proper() && Hit(ps, k, w) && ps[k].wr && Covered(w, ps, k)
    ensures p in ps && p.wr && (w.IsArray() ==> p.addr == w.addr)
    ensures if w.IsArray() then RangesContain(p.dims, w.dims) else Contains(p, w)
  {
    p := ps[k];
    if w.IsArray() {
      ContainedInArrayExact(w, ps, k);
      var m :| k <= m < |ps| && ArrayContains(ps[m], w);
      p := ps[m];
    }
  }

  /** Whatever conflicts with a pruned argument conflicts with the task that covers it. */
  lemma PrunedIsCovered(qs: seq<Region>, ps: seq<Region>, ws: seq<Region>, k: nat, l: nat)
    requires Arguments(qs) && OnePermission(ps) && Arguments(ws) && k < |ps| && l < |ws|
    requires AllCompatible(qs, ws) && AllCompatible(ps, ws) && Hit(ps, k, ws[l])
    requires Conflicts(qs, ws) && !Conflicts(qs, Prune(ps, k, ws, l))
    ensures Conflicts(qs, ps)
  {
    var q, w :| q in qs && w in ws && Conflict(q, w);
    var ws' := Prune(ps, k, ws, l);
    assert forall i | 0 <= i < |ws| && i != l :: ws[i] in ws';
    assert w == ws[l];
    var p := Coverer(ps, k, w);
    assert Compatible(p, w) && Compatible(q, w);
    CoveredConflicts(q, p, w);
  }

  lemma LinkPair(s: State, t: nat, a: nat)
    requires Inv(s) && Tidy(s) && GoodProgram(s.jobs) && Enabled(s, Link(t)) && a < t
    requires Held(s, t, a) && Childless(s.jobs, a)
    ensures Held(DoLink(s, t), t, a)
  {
    var x := s.tasks[t];
    var s' := DoLink(s, t);
    assert TaskOk(s, t) && Awaited(s, t) && PathAt(s, t);
    ChildlessIsNoAncestor(s, t, a);
    LooksAtNoAncestor(s, t);
    WithDepUndrained(s.tasks[x.at], t, t);
    assert Edge(s', t, x.at);
    forall p: nat | a <= p < t && Edge(s, t, p) ensures Edge(s', t, p) {
    }
    if WillFind(s, t, a) && a < x.at && !Conflicts(s.jobs[a].args, s'.tasks[t].argv) {
      assert GoodPair(s.jobs[a].args, s.jobs[t].args) && GoodPair(s.jobs[x.at].args, s.jobs[t].args);
      GoodWithin(s.jobs[a].args, s.jobs[t].args, x.argv);
      GoodWithin(s.jobs[x.at].args, s.jobs[t].args, x.argv);
      PrunedIsCovered(s.jobs[a].args, s.jobs[x.at].args, x.argv, x.fill.k, x.fill.l);
      assert Through(s', t, x.at, a);
    }
    HeldFrame(s, s', t, a);
  }

  lemma LinkKeepsEdges(s: State, t: nat, b: nat, p: nat)
    requires Core(s) && Enabled(s, Link(t)) && p < |s.tasks| && Edge(s, b, p)
    ensures Edge(DoLink(s, t), b, p)
  {
    assert TaskOk(s, t) && Awaited(s, t);
    WithDepUndrained(s.tasks[s.tasks[t].at], t, b);
  }

  lemma LinkOtherPair(s: State, t: nat, b: nat, a: nat)
    requires Core(s) && Enabled(s, Link(t)) && a < b < |s.tasks| && b != t && Held(s, b, a)
    ensures Held(DoLink(s, t), b, a)
  {
    forall p: nat | a <= p < b && Edge(s, b, p) ensures Edge(DoLink(s, t), b, p) {
      LinkKeepsEdges(s, t, b, p);
    }
    HeldFrame(s, DoLink(s, t), b, a);
  }

  lemma LinkOrdered(s: State, t: nat)
    requires Inv(s) && Tidy(s) && GoodProgram(s.jobs) && Ordered(s) && Enabled(s, Link(t))
    ensures Ordered(DoLink(s, t))
  {
    var s' := DoLink(s, t);
    forall a: nat, b: nat | a < b < |s.tasks| ensures OrderedPair(s', b, a) {
      assert OrderedPair(s, b, a);
      if Held(s, b, a) && Childless(s.jobs, a) {
        if b == t {
          LinkPair(s, t, a);
        } else {
          LinkOtherPair(s, t, b, a);
        }
      }
    }
  }

  /** Every older task that `t` is opposed to has finished. */
  predicate Clear(s: State, t: nat)
    requires t < |s.tasks| == |s.jobs|
  {
    forall a: nat | a < t && Opposed(s.jobs, t, a) :: !s.tasks[a].status.Live()
  }

  lemma PostedIsClear(s: State, t: nat)
    requires Core(s) && Ordered(s) && t < |s.tasks| && s.tasks[t].status.Posted()
    ensures Clear(s, t)
  {
    forall a: nat | a < t && Opposed(s.jobs, t, a) ensures !s.tasks[a].status.Live() {
      PostedMeansClear(s, t, a);
    }
  }

  lemma OneFurtherOrdered(s: State, t: nat)
    requires |s.tasks| == |s.jobs| && Ordered(s) && t < |s.tasks| && Clear(s, t)
    requires s.tasks[t].status.Done? && s.tasks[t].fin.Drain? && s.tasks[t].fin.k < |s.tasks[t].deps|
    ensures Ordered(Put(s, t, OneFurther(s.tasks[t])))
  {
    var s' := Put(s, t, OneFurther(s.tasks[t]));
    forall a: nat, b: nat | a < b < |s.tasks| ensures OrderedPair(s', b, a) {
      assert OrderedPair(s, b, a);
      if s.tasks[a].status.Live() && Held(s, b, a) && Childless(s.jobs, a) {
        if p: nat :| a < p < b && Through(s, b, p, a) {
          assert p != t;
          assert Through(s', b, p, a);
        }
      }
    }
  }

  lemma FreedOrdered(s: State, w: nat)
    requires |s.tasks| == |s.jobs| && Ordered(s) && w < |s.tasks| && s.tasks[w].status.Waiting?
    ensures Ordered(Put(s, w, Freed(s.tasks[w])))
  {
    PutOrdered(s, w, Freed(s.tasks[w]));
  }

  lemma FreedClear(s: State, w: nat, t: nat)
    requires t < |s.tasks| == |s.jobs| && w < |s.tasks| && s.tasks[w].status.Waiting? && Clear(s, t)
    ensures Clear(Put(s, w, Freed(s.tasks[w])), t)
  {
  }

  lemma ReleaseOrdered(s: State, t: nat)
    requires Core(s) && Ordered(s) && Enabled(s, Release(t))
    requires var w := s.tasks[t].deps[s.tasks[t].fin.k]; t < w && s.tasks[w].status.Waiting?
    ensures Ordered(DoRelease(s, t))
  {
    var w := s.tasks[t].deps[s.tasks[t].fin.k];
    assert TaskOk(s, t);
    PostedIsClear(s, t);
    FreedOrdered(s, w);
    FreedClear(s, w, t);
    OneFurtherOrdered(Put(s, w, Freed(s.tasks[w])), t);
    ReleaseRecords(s, t, w);
  }

  lemma AppendOrdered(s: State, job: Job)
    requires Core(s) && Ordered(s)
    ensures Ordered(Append(s, job))
  {
    var s' := Append(s, job);
    forall a: nat, b: nat | a < b < |s'.tasks| ensures OrderedPair(s', b, a) {
      if b < |s.tasks| {
        if Opposed(s'.jobs, b, a) {
          ChildlessBefore(s.jobs, s'.jobs, a);
        }
        assert OrderedPair(s, b, a);
        if p: nat :| a < p < b && Through(s, b, p, a) {
          assert Through(s', b, p, a);
        }
      } else if Opposed(s'.jobs, b, a) {
        assert WillFind(s', b, a);
      }
    }
  }

  lemma PushOrdered(s: State, job: Job)
    requires Core(s) && Ordered(s) && CanPush(s, job)
    ensures Ordered(DoPush(s, job))
  {
    if job.father == NULL {
      AppendOrdered(s, job);
    } else {
      PutOrdered(s, job.father, WithChild(s.tasks[job.father]));
      WithChildKeeps(s, job.father);
      AppendOrdered(Put(s, job.father, WithChild(s.tasks[job.father])), job);
    }
  }

  lemma MemoryOrdered(s: State, mem: Memory)
    requires |s.tasks| == |s.jobs| && Ordered(s)
    ensures Ordered(s.(mem := mem))
  {
    var s' := s.(mem := mem);
    forall a: nat, b: nat | a < b < |s'.tasks| ensures OrderedPair(s', b, a) {
      assert OrderedPair(s, b, a);
      if p: nat :| a < p < b && Through(s, b, p, a) {
        assert Through(s', b, p, a);
      }
    }
  }

  lemma ActOrdered(s: State, t: nat)
    requires |s.tasks| == |s.jobs| && Ordered(s) && Enabled(s, Act(t))
    ensures Ordered(DoAct(s, t))
  {
    var result := match s.jobs[t].act(s.tasks[t].trace) case Load(a) => Get(s.mem, a) case _ => 0;
    PutOrdered(s, t, AfterAccess(s.tasks[t], result));
    MemoryOrdered(Put(s, t, AfterAccess(s.tasks[t], result)), DoAct(s, t).mem);
  }

  lemma NotifyOrdered(s: State, t: nat)
    requires Inv(s) && Ordered(s) && Enabled(s, Notify(t))
    ensures Ordered(DoNotify(s, t))
  {
    var f := s.jobs[t].father;
    assert TaskOk(s, t);
    PutOrdered(s, t, Notified(s.tasks[t]));
    if f != NULL {
      FatherCounts(s, t);
      PutOrdered(Put(s, t, Notified(s.tasks[t])), f, Signalled(s.tasks[f], s.tasks[t].fin.upto));
    }
  }

  lemma LeavingOrdered(s: State, step: Step)
    requires Core(s) && GoodProgram(s.jobs) && Ordered(s) && Enabled(s, step)
    requires step.Decide? || step.Leave? || step.Start?
    ensures Ordered(Apply(s, step))
  {
    assert TaskOk(s, step.t);
    PutOrdered(s, step.t, Apply(s, step).tasks[step.t]);
  }

  lemma EndingOrdered(s: State, step: Step)
    requires Core(s) && GoodProgram(s.jobs) && Ordered(s) && Enabled(s, step)
    requires step.Return? || step.Snapshot? || step.WalkOn? || step.Free?
    ensures Ordered(Apply(s, step))
  {
    assert TaskOk(s, step.t);
    PutOrdered(s, step.t, Apply(s, step).tasks[step.t]);
  }

  /** Every step of a good program, nested or not, keeps opposed tasks ordered. */
  lemma StepKeepsOrdered(s: State, step: Step)
    requires Inv(s) && Tidy(s) && CascadeSafe(s) && Ordered(s) && GoodProgram(s.jobs) && Enabled(s, step)
    ensures Ordered(Apply(s, step))
  {
    match step
    case Push(job) => PushOrdered(s, job);
    case Read(t) => ReadOrdered(s, t);
    case Match(t) => MatchOrdered(s, t);
    case Link(t) => LinkOrdered(s, t);
    case TestFill(t) => TestOrdered(s, t);
    case Act(t) => ActOrdered(s, t);
    case Release(t) =>
      ReleaseTarget(s, t);
      ReleaseOrdered(s, t);
    case Notify(t) => NotifyOrdered(s, t);
    case Decide(_) => LeavingOrdered(s, step);
    case Leave(_) => LeavingOrdered(s, step);
    case Start(_) => LeavingOrdered(s, step);
    case _ => EndingOrdered(s, step);
  }
}
