/** What a scan leaves alone and what it keeps: it passes the ancestors of its task by, so that every edge joins two
    conflicting tasks of which neither is an ancestor of the other. */
module Ancestry {
  import opened Regions
  import opened ArgScan
  import opened Containment
  import opened Protocol
  import opened Invariants
  import opened Linking
  import opened Spawning
  import opened Safety
  import opened Shelter

  // ----- what one step leaves alone

  /** A step of the insertion of `t`. */
  predicate Inserts(step: Step, t: nat) { !step.Push? && step.t == t && (OfScan(step) || step.Link?) }

  /** The position of the scan and what it still has to compare. */
  predicate SameScan(x: Task, x': Task) {
    x'.fill == x.fill && x'.at == x.at && x'.ancestor == x.ancestor && x'.scape == x.scape && x'.argv == x.argv
  }

  lemma OwnStepScan(s: State, step: Step)
    requires Enabled(s, step) && WritesOwnRecord(step) && !OfScan(step)
    ensures step.t < |Apply(s, step).tasks| && SameScan(s.tasks[step.t], Apply(s, step).tasks[step.t])
  {
  }

  lemma PushScan(s: State, job: Job, t: nat)
    requires CanPush(s, job) && t < |s.tasks|
    ensures t < |DoPush(s, job).tasks| && SameScan(s.tasks[t], DoPush(s, job).tasks[t])
  {
  }

  lemma LinkScan(s: State, u: nat, t: nat)
    requires Enabled(s, Link(u)) && t < |s.tasks| && t != u
    ensures SameScan(s.tasks[t], DoLink(s, u).tasks[t])
  {
  }

  lemma ReleaseScan(s: State, u: nat, t: nat)
    requires Enabled(s, Release(u)) && t < |s.tasks|
    ensures SameScan(s.tasks[t], DoRelease(s, u).tasks[t])
  {
  }

  lemma NotifyScan(s: State, u: nat, t: nat)
    requires Enabled(s, Notify(u)) && t < |s.tasks|
    ensures SameScan(s.tasks[t], DoNotify(s, u).tasks[t])
  {
  }

  lemma OtherStepScan(s: State, step: Step, t: nat)
    requires Enabled(s, step) && !WritesOwnRecord(step) && t < |s.tasks| && !Inserts(step, t)
    ensures t < |Apply(s, step).tasks| && SameScan(s.tasks[t], Apply(s, step).tasks[t])
  {
    match step
    case Push(job) => PushScan(s, job, t);
    case Link(u) => LinkScan(s, u, t);
    case Release(u) => ReleaseScan(s, u, t);
    case Notify(u) => NotifyScan(s, u, t);
  }

  /** Only its own insertion moves the scan of a task. */
  lemma ScanKept(s: State, step: Step, t: nat)
    requires Enabled(s, step) && t < |s.tasks| && !Inserts(step, t)
    ensures t < |Apply(s, step).tasks| && SameScan(s.tasks[t], Apply(s, step).tasks[t])
  {
    if !WritesOwnRecord(step) {
      OtherStepScan(s, step, t);
    } else {
      OwnStepFrame(s, step);
      if step.t == t {
        OwnStepScan(s, step);
      }
    }
  }

  lemma OwnStepDeps(s: State, step: Step)
    requires Enabled(s, step) && WritesOwnRecord(step)
    ensures step.t < |Apply(s, step).tasks|
    ensures Apply(s, step).tasks[step.t].deps == if step.Free? then [] else s.tasks[step.t].deps
  {
  }

  /** Dependants are added by links and removed when they are freed. */
  lemma DepsKept(s: State, step: Step, p: nat)
    requires Enabled(s, step) && p < |s.tasks|
    ensures p < |Apply(s, step).tasks|
    ensures var deps, deps' := s.tasks[p].deps, Apply(s, step).tasks[p].deps;
            deps' == deps || deps' == [] || (step.Link? && s.tasks[step.t].at == p && deps' == deps + [step.t])
  {
    if WritesOwnRecord(step) {
      OwnStepFrame(s, step);
      OwnStepDeps(s, step);
    }
  }

  lemma OwnStepLinks(s: State, step: Step)
    requires Enabled(s, step) && WritesOwnRecord(step) && FinOk(s.tasks[step.t], |s.tasks|)
    requires StatusOk(s.tasks[step.t], s.jobs[step.t])
    ensures step.t < |Apply(s, step).tasks| && Undrained(Apply(s, step).tasks[step.t]) == Undrained(s.tasks[step.t])
  {
    if OfScan(step) {
      ScanKeepsEnd(s, step);
      OwnStepDeps(s, step);
    }
  }

  lemma LinkLinks(s: State, t: nat, b: nat, p: nat)
    requires Core(s) && Enabled(s, Link(t)) && p < |s.tasks|
    ensures Links(DoLink(s, t).tasks[p], b) == Links(s.tasks[p], b) + if p == s.tasks[t].at && b == t then 1 else 0
  {
    assert TaskOk(s, t) && Awaited(s, t);
    WithDepUndrained(s.tasks[s.tasks[t].at], t, b);
  }

  lemma ReleaseFrame(s: State, t: nat, p: nat)
    requires Enabled(s, Release(t)) && p < |s.tasks| && p != t
    ensures DoRelease(s, t).tasks[p].deps == s.tasks[p].deps && DoRelease(s, t).tasks[p].fin == s.tasks[p].fin
  {
  }

  lemma ReleaseLinks(s: State, t: nat, b: nat, p: nat)
    requires Enabled(s, Release(t)) && p < |s.tasks| && p != t
    ensures Links(DoRelease(s, t).tasks[p], b) == Links(s.tasks[p], b)
  {
    ReleaseFrame(s, t, p);
  }

  lemma PushLinks(s: State, job: Job, b: nat, p: nat)
    requires CanPush(s, job) && p < |s.tasks|
    ensures Links(DoPush(s, job).tasks[p], b) == Links(s.tasks[p], b)
  {
  }

  lemma NotifyLinks(s: State, t: nat, b: nat, p: nat)
    requires Inv(s) && Enabled(s, Notify(t)) && p < |s.tasks|
    ensures Links(DoNotify(s, t).tasks[p], b) == Links(s.tasks[p], b)
  {
    assert TaskOk(s, t);
    if s.jobs[t].father != NULL {
      FatherCounts(s, t);
    }
  }

  lemma OwnLinks(s: State, step: Step, b: nat, p: nat)
    requires Core(s) && Enabled(s, step) && WritesOwnRecord(step) && p < |s.tasks|
    ensures p < |Apply(s, step).tasks| && Links(Apply(s, step).tasks[p], b) == Links(s.tasks[p], b)
  {
    OwnStepFrame(s, step);
    if step.t == p {
      assert TaskOk(s, p);
      OwnStepLinks(s, step);
    }
  }

  lemma OtherLinks(s: State, step: Step, b: nat, p: nat)
    requires Inv(s) && Enabled(s, step) && !WritesOwnRecord(step) && step != Release(p) && p < |s.tasks|
    ensures p < |Apply(s, step).tasks| && Links(Apply(s, step).tasks[p], b) >= Links(s.tasks[p], b)
  {
    match step
    case Push(job) => PushLinks(s, job, b, p);
    case Link(t) => LinkLinks(s, t, b, p);
    case Release(t) => ReleaseLinks(s, t, b, p);
    case Notify(t) => NotifyLinks(s, t, b, p);
  }

  /** A live edge stays until the task it leads to releases it. */
  lemma EdgeKept(s: State, step: Step, b: nat, p: nat)
    requires Inv(s) && Enabled(s, step) && step != Release(p) && p < |s.tasks|
    ensures p < |Apply(s, step).tasks| && Links(Apply(s, step).tasks[p], b) >= Links(s.tasks[p], b)
  {
    if WritesOwnRecord(step) {
      OwnLinks(s, step, b, p);
    } else {
      OtherLinks(s, step, b, p);
    }
  }

  // ----- ancestors are passed by

  predicate Looking(x: Task) { x.fill.Examine? || x.fill.Linking? || x.fill.Test? }

  /** The ancestors of `t` that its scan has not passed are those from `ancestor` on, and it does not compare with
      that one. */
  predicate PathAt(s: State, t: nat)
    requires t < |s.tasks| == |s.jobs|
  {
    var x := s.tasks[t];
    && x.ancestor <= x.at
    && (0 <= x.ancestor ==> Descendant(s.jobs, t, x.ancestor))
    && (Looking(x) ==> x.at != x.ancestor && !x.scape)
    && (!x.scape ==> forall a: nat | a <= x.at && Descendant(s.jobs, t, a) :: AncestorOfNew(s.jobs, x.ancestor, a))
  }

  lemma LooksAtNoAncestor(s: State, t: nat)
    requires t < |s.tasks| == |s.jobs| && PathAt(s, t) && Looking(s.tasks[t]) && 0 <= s.tasks[t].at
    ensures !Descendant(s.jobs, t, s.tasks[t].at)
  {
    var x := s.tasks[t];
    if Descendant(s.jobs, t, x.at) {
      assert AncestorOfNew(s.jobs, x.ancestor, x.at);
      DescendantIsNewer(s.jobs, x.ancestor, x.at);
    }
  }

  lemma PathFrame(s: State, s': State, t: nat)
    requires t < |s.tasks| == |s.jobs| <= |s'.tasks| == |s'.jobs| && s.jobs <= s'.jobs && PathAt(s, t)
    requires SameScan(s.tasks[t], s'.tasks[t])
    requires s.tasks[t].ancestor < |s.jobs|
    ensures PathAt(s', t)
  {
    var x := s.tasks[t];
    if 0 <= x.ancestor {
      DescendantGrows(s.jobs, s'.jobs, t, x.ancestor);
    }
    forall a: nat | !x.scape && a <= x.at && Descendant(s'.jobs, t, a) ensures AncestorOfNew(s'.jobs, x.ancestor, a) {
      DescendantGrows(s.jobs, s'.jobs, t, a);
      assert AncestorOfNew(s.jobs, x.ancestor, a);
      DescendantGrows(s.jobs, s'.jobs, x.ancestor, a);
    }
  }

  lemma PathOfNew(s: State, t: nat)
    requires t < |s.tasks| == |s.jobs| && FatherOlder(s, t) && s.tasks[t] == NewTask(s.jobs[t], t - 1)
    ensures PathAt(s, t)
  {
  }

  lemma PathRead(s: State, t: nat)
    requires InScan(s, t, Visit) && !s.tasks[t].scape && Family(s) && PathAt(s, t)
    ensures PathAt(DoRead(s, t), t)
  {
    var x := s.tasks[t];
    if x.at == x.ancestor {
      var f := s.jobs[x.ancestor].father;
      assert FatherOlder(s, x.ancestor);
      if 0 <= f {
        DescendantOfFather(s.jobs, t, x.ancestor);
      }
      forall a: nat | a < x.at && Descendant(s.jobs, t, a) ensures AncestorOfNew(s.jobs, f, a) {
        assert AncestorOfNew(s.jobs, x.ancestor, a);
      }
    }
  }

  /** The scan ends early exactly at an ancestor whose father is a task that has every argument of `t` inside one of
      its own, place by place. */
  lemma EscapeExact(s: State, t: nat)
    requires Inv(s) && InScan(s, t, Visit) && !s.tasks[t].scape
    requires var f := s.jobs[s.tasks[t].at].father; 0 <= f < |s.jobs| ==> AllApart(s.jobs[f].args, s.jobs[t].args)
    ensures var p := s.tasks[t].at;
            DoRead(s, t).tasks[t].scape <==>
            p == s.tasks[t].ancestor && 0 <= s.jobs[p].father < |s.jobs|
            && AllInside(s.jobs[t].args, s.jobs[s.jobs[p].father].args)
  {
    var f := s.jobs[s.tasks[t].at].father;
    assert TaskOk(s, t) && TaskOk(s, s.tasks[t].at);
    if 0 <= f < |s.jobs| {
      assert TaskOk(s, f);
      ContainmentExact(s.jobs[t].args, s.jobs[f].args);
    }
  }

  lemma PathScan(s: State, step: Step)
    requires Family(s) && Enabled(s, step) && !step.Push? && Inserts(step, step.t) && PathAt(s, step.t)
    ensures step.t < |Apply(s, step).tasks| == |Apply(s, step).jobs| && PathAt(Apply(s, step), step.t)
  {
    if step.Read? {
      PathRead(s, step.t);
    }
  }

  // ----- edges

  /** `t` is newer than `p`, conflicts with it, and is no descendant of it. */
  predicate Joins(jobs: seq<Job>, t: nat, p: nat) {
    p < t < |jobs| && Conflicts(jobs[p].args, jobs[t].args) && !Descendant(jobs, t, p)
  }

  predicate JoinsAt(s: State, p: nat)
    requires p < |s.tasks|
  {
    forall k | 0 <= k < |s.tasks[p].deps| :: Joins(s.jobs, s.tasks[p].deps[k], p)
  }

  /** Scans pass ancestors by, and edges join conflicting tasks of different branches. */
  ghost predicate Tidy(s: State) {
    |s.tasks| == |s.jobs| && forall t: nat | t < |s.tasks| :: PathAt(s, t) && JoinsAt(s, t)
  }

  lemma LinkJoins(s: State, t: nat)
    requires Inv(s) && Tidy(s) && Enabled(s, Link(t))
    ensures 0 <= s.tasks[t].at && Joins(s.jobs, t, s.tasks[t].at)
  {
    var x := s.tasks[t];
    assert TaskOk(s, t) && PathAt(s, t) && TaskOk(s, x.at);
    LooksAtNoAncestor(s, t);
    HitConflicts(s.jobs[x.at].args, x.fill.k, x.argv[x.fill.l]);
    assert x.argv[x.fill.l] in s.jobs[t].args;
  }

  lemma JoinsGrow(jobs: seq<Job>, jobs': seq<Job>, t: nat, p: nat)
    requires jobs <= jobs' && t < |jobs|
    ensures Joins(jobs', t, p) == Joins(jobs, t, p)
  {
    DescendantGrows(jobs, jobs', t, p);
  }

  lemma StepKeepsJoins(s: State, step: Step, p: nat)
    requires Inv(s) && Tidy(s) && Enabled(s, step) && p < |s.tasks|
    ensures p < |Apply(s, step).tasks| && JoinsAt(Apply(s, step), p)
  {
    var s' := Apply(s, step);
    JobsGrow(s, step);
    DepsKept(s, step, p);
    assert JoinsAt(s, p);
    forall k | 0 <= k < |s'.tasks[p].deps| ensures Joins(s'.jobs, s'.tasks[p].deps[k], p) {
      if k < |s.tasks[p].deps| {
        JoinsGrow(s.jobs, s'.jobs, s.tasks[p].deps[k], p);
      } else {
        LinkJoins(s, step.t);
      }
    }
  }

  lemma StepKeepsPath(s: State, step: Step, t: nat)
    requires Inv(s) && Tidy(s) && Enabled(s, step) && t < |s.tasks|
    ensures t < |Apply(s, step).tasks| == |Apply(s, step).jobs| && PathAt(Apply(s, step), t)
  {
    InvIsFamily(s);
    JobsGrow(s, step);
    assert PathAt(s, t) && TaskOk(s, t);
    if Inserts(step, t) {
      PathScan(s, step);
    } else {
      ScanKept(s, step, t);
      PathFrame(s, Apply(s, step), t);
    }
  }

  /** Every step keeps scans on their path and edges between branches. */
  lemma StepKeepsTidy(s: State, step: Step)
    requires Inv(s) && Tidy(s) && Enabled(s, step)
    ensures Tidy(Apply(s, step))
  {
    var s' := Apply(s, step);
    InvIsFamily(s);
    JobsGrow(s, step);
    StepKeepsFamily(s, step);
    forall t: nat | t < |s'.tasks| ensures PathAt(s', t) && JoinsAt(s', t) {
      if t < |s.tasks| {
        StepKeepsPath(s, step, t);
        StepKeepsJoins(s, step, t);
      } else {
        assert FatherOlder(s', t);
        PathOfNew(s', t);
      }
    }
  }
}
