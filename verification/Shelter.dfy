/** When it is safe to spawn inside a task: a guard on the spawn call under which no cascade of endings falls short,
    with any number of threads spawning and nesting of any depth. */
module Shelter {
  import opened Protocol
  import opened Invariants
  import opened Safety
  import opened Spawning

  // ----- descendants

  /** `d` was spawned by `a` or by a descendant of `a`. */
  predicate Descendant(jobs: seq<Job>, d: nat, a: nat)
    requires d < |jobs|
    decreases d
  {
    var f := jobs[d].father;
    0 <= f < d && (f == a || Descendant(jobs, f, a))
  }

  lemma {:induction false} DescendantGrows(jobs: seq<Job>, jobs': seq<Job>, d: nat, a: nat)
    requires d < |jobs| && jobs <= jobs'
    ensures Descendant(jobs', d, a) == Descendant(jobs, d, a)
    decreases d
  {
    var f := jobs[d].father;
    if 0 <= f < d {
      DescendantGrows(jobs, jobs', f, a);
    }
  }

  lemma {:induction false} DescendantIsNewer(jobs: seq<Job>, d: nat, a: nat)
    requires d < |jobs| && Descendant(jobs, d, a)
    ensures a < d
    decreases d
  {
    if jobs[d].father != a {
      DescendantIsNewer(jobs, jobs[d].father, a);
    }
  }

  /** The father of an ancestor is an ancestor. */
  lemma {:induction false} DescendantOfFather(jobs: seq<Job>, d: nat, c: nat)
    requires d < |jobs| && c < |jobs| && (d == c || Descendant(jobs, d, c)) && 0 <= jobs[c].father < c
    ensures Descendant(jobs, d, jobs[c].father)
    decreases d
  {
    if d != c && jobs[d].father != c {
      DescendantOfFather(jobs, jobs[d].father, c);
    }
  }

  /** `t` has spawned nothing. */
  predicate Childless(jobs: seq<Job>, t: int) {
    forall c | 0 <= c < |jobs| :: jobs[c].father != t
  }

  lemma {:induction false} AncestorHasChild(jobs: seq<Job>, d: nat, a: nat)
    requires d < |jobs| && Descendant(jobs, d, a)
    ensures !Childless(jobs, a)
    decreases d
  {
    if jobs[d].father != a {
      AncestorHasChild(jobs, jobs[d].father, a);
    }
  }

  lemma ChildlessBefore(jobs: seq<Job>, jobs': seq<Job>, t: int)
    requires jobs <= jobs' && Childless(jobs', t)
    ensures Childless(jobs, t)
  {
    forall c | 0 <= c < |jobs| ensures jobs[c].father != t {
      assert jobs'[c] == jobs[c];
    }
  }

  lemma {:induction false} SignalledSubtree(s: State, d: nat, a: nat)
    requires Family(s) && d < |s.tasks| && a < |s.tasks| && Descendant(s.jobs, d, a) && !s.tasks[a].fin.Unfinished?
    ensures s.tasks[d].fin.Gone?
    decreases d
  {
    var f := s.jobs[d].father;
    if f != a {
      SignalledSubtree(s, f, a);
    }
    if !s.tasks[d].fin.Gone? {
      FatherCounts(s, d);
    }
  }

  // ----- the guard

  /** `c` is an ancestor of a task that is spawned by `father`. */
  predicate AncestorOfNew(jobs: seq<Job>, father: int, c: nat) {
    0 <= father < |jobs| && (father == c || Descendant(jobs, father, c))
  }

  predicate QuietAt(s: State, c: nat, t: nat)
    requires t < |s.tasks| == |s.jobs|
  {
    c < t && !Descendant(s.jobs, t, c) ==> LeftFilling(s, t)
  }

  /** No task newer than `c` and outside its subtree is filling. */
  predicate Quiet(s: State, c: nat)
    requires |s.tasks| == |s.jobs|
  {
    forall t: nat | t < |s.tasks| :: QuietAt(s, c, t)
  }

  /** The guard on a spawn: it is quiet behind every ancestor of the new task. Spawns from outside always meet it. */
  predicate MaySpawn(s: State, father: int)
    requires |s.tasks| == |s.jobs|
  {
    forall c: nat | c < |s.tasks| && AncestorOfNew(s.jobs, father, c) :: Quiet(s, c)
  }

  /** A spawn meets the guard while no task is filling. */
  lemma NobodyFills(s: State, father: int)
    requires |s.tasks| == |s.jobs| && forall t: nat | t < |s.tasks| :: LeftFilling(s, t)
    ensures MaySpawn(s, father)
  {
    forall c: nat, t: nat | t < |s.tasks| ensures QuietAt(s, c, t) {
    }
  }

  // ----- what it keeps

  /** A task between an ancestor `c` and its descendant `u`, itself no descendant of `c`, is not filling. */
  predicate ShelteredAt(s: State, u: nat, c: nat, t: nat)
    requires u < |s.tasks| == |s.jobs| && t < |s.tasks|
  {
    c < t < u && Descendant(s.jobs, u, c) && !Descendant(s.jobs, t, c) ==> LeftFilling(s, t)
  }

  /** A cascade was started by the task itself or by a descendant. */
  predicate CascadeBelow(s: State, c: nat)
    requires c < |s.tasks| == |s.jobs|
  {
    var u := Upto(s.tasks[c].fin);
    u == NULL || u == c || (0 <= u < |s.jobs| && Descendant(s.jobs, u, c))
  }

  ghost predicate Sheltered(s: State) {
    && |s.tasks| == |s.jobs|
    && (forall u: nat, c: nat, t: nat | u < |s.tasks| && t < |s.tasks| :: ShelteredAt(s, u, c, t))
    && (forall c: nat | c < |s.tasks| :: CascadeBelow(s, c))
  }

  lemma ShelteredIsSafe(s: State)
    requires Inv(s) && Sheltered(s)
    ensures CascadeSafe(s)
  {
    InvIsFamily(s);
    forall c: nat, t: nat | c < |s.tasks| && t < |s.tasks| ensures SafeFrom(s, c, t) {
      var f := s.tasks[c].fin;
      if (f.Walk? || f.Drain?) && c < t < f.upto {
        assert TaskOk(s, c) && TaskOk(s, t) && CascadeBelow(s, c) && ShelteredAt(s, f.upto, c, t);
        if Descendant(s.jobs, t, c) {
          SignalledSubtree(s, t, c);
        }
      }
    }
  }

  lemma ScanStaysOver(s: State, step: Step)
    requires Enabled(s, step) && OfScan(step) && LeftFilling(s, step.t)
    ensures LeftFilling(Apply(s, step), step.t)
  {
  }

  lemma OthersStayOver(s: State, step: Step, t: nat)
    requires Enabled(s, step) && !WritesOwnRecord(step) && t < |s.tasks| && LeftFilling(s, t)
    ensures LeftFilling(Apply(s, step), t)
  {
  }

  lemma EndStaysOver(s: State, step: Step)
    requires Enabled(s, step) && WritesOwnRecord(step) && !OfScan(step) && LeftFilling(s, step.t)
    ensures LeftFilling(Apply(s, step), step.t)
  {
  }

  lemma FillingIsOver(s: State, step: Step, t: nat)
    requires Enabled(s, step) && t < |s.tasks| && LeftFilling(s, t)
    ensures LeftFilling(Apply(s, step), t)
  {
    if !WritesOwnRecord(step) {
      OthersStayOver(s, step, t);
    } else {
      OwnStepFrame(s, step);
      if t == step.t {
        if OfScan(step) {
          ScanStaysOver(s, step);
        } else {
          EndStaysOver(s, step);
        }
      }
    }
  }

  lemma StepKeepsShelter(s: State, step: Step, u: nat, c: nat, t: nat)
    requires Sheltered(s) && Enabled(s, step) && (step.Push? ==> MaySpawn(s, step.job.father))
    requires u < |Apply(s, step).tasks| == |Apply(s, step).jobs| && t < |Apply(s, step).tasks|
    ensures ShelteredAt(Apply(s, step), u, c, t)
  {
    var s' := Apply(s, step);
    JobsGrow(s, step);
    if c < t < u && Descendant(s'.jobs, u, c) && !Descendant(s'.jobs, t, c) {
      DescendantGrows(s.jobs, s'.jobs, t, c);
      if u < |s.tasks| {
        DescendantGrows(s.jobs, s'.jobs, u, c);
        assert ShelteredAt(s, u, c, t);
      } else {
        var f := step.job.father;
        if f != c {
          DescendantGrows(s.jobs, s'.jobs, f, c);
        }
        assert AncestorOfNew(s.jobs, f, c) && Quiet(s, c) && QuietAt(s, c, t);
      }
      FillingIsOver(s, step, t);
    }
  }

  lemma ScanKeepsEnd(s: State, step: Step)
    requires Enabled(s, step) && OfScan(step)
    ensures step.t < |Apply(s, step).tasks| && Apply(s, step).tasks[step.t].fin == s.tasks[step.t].fin
  {
  }

  lemma EndKeepsStart(s: State, step: Step)
    requires Enabled(s, step) && WritesOwnRecord(step) && !OfScan(step)
    ensures step.t < |Apply(s, step).tasks|
    ensures var u := Upto(Apply(s, step).tasks[step.t].fin);
            u == Upto(s.tasks[step.t].fin) || u == NULL || u == step.t
  {
  }

  lemma OwnStepCascade(s: State, step: Step)
    requires Enabled(s, step) && WritesOwnRecord(step) && CascadeBelow(s, step.t)
    ensures |Apply(s, step).tasks| == |Apply(s, step).jobs| && step.t < |Apply(s, step).tasks|
    ensures CascadeBelow(Apply(s, step), step.t)
  {
    JobsGrow(s, step);
    if OfScan(step) {
      ScanKeepsEnd(s, step);
    } else {
      EndKeepsStart(s, step);
    }
  }

  lemma NotifyCascade(s: State, t: nat, c: nat)
    requires Family(s) && Sheltered(s) && Enabled(s, Notify(t)) && c < |s.tasks|
    ensures CascadeBelow(DoNotify(s, t), c)
  {
    assert CascadeBelow(s, t) && CascadeBelow(s, c) && FatherOlder(s, t);
    if s.jobs[t].father != NULL {
      DescendantOfFather(s.jobs, s.tasks[t].fin.upto, t);
    }
  }

  lemma StepKeepsCascade(s: State, step: Step, c: nat)
    requires Family(s) && Sheltered(s) && Enabled(s, step) && !step.Push? && c < |s.tasks|
    ensures c < |Apply(s, step).tasks| == |Apply(s, step).jobs| && CascadeBelow(Apply(s, step), c)
  {
    JobsGrow(s, step);
    assert CascadeBelow(s, c);
    if step.Notify? {
      NotifyCascade(s, step.t, c);
    } else if WritesOwnRecord(step) {
      OwnStepFrame(s, step);
      if c == step.t {
        OwnStepCascade(s, step);
      }
    }
  }

  lemma PushKeepsCascade(s: State, job: Job, c: nat)
    requires Sheltered(s) && CanPush(s, job) && c <= |s.tasks|
    ensures |DoPush(s, job).tasks| == |DoPush(s, job).jobs| == |s.tasks| + 1 && CascadeBelow(DoPush(s, job), c)
  {
    if c < |s.tasks| {
      assert CascadeBelow(s, c);
      var u := Upto(s.tasks[c].fin);
      if u != NULL && u != c {
        DescendantGrows(s.jobs, s.jobs + [job], u, c);
      }
    }
  }

  /** A step keeps the shelter as long as spawns meet the guard. */
  lemma StepKeepsSheltered(s: State, step: Step)
    requires Family(s) && Sheltered(s) && Enabled(s, step) && (step.Push? ==> MaySpawn(s, step.job.father))
    ensures Sheltered(Apply(s, step))
  {
    var s' := Apply(s, step);
    JobsGrow(s, step);
    forall u: nat, c: nat, t: nat | u < |s'.tasks| && t < |s'.tasks| ensures ShelteredAt(s', u, c, t) {
      StepKeepsShelter(s, step, u, c, t);
    }
    forall c: nat | c < |s'.tasks| ensures CascadeBelow(s', c) {
      if step.Push? {
        PushKeepsCascade(s, step.job, c);
      } else {
        StepKeepsCascade(s, step, c);
      }
    }
  }

  /** The guard is exactly what a spawn must meet to keep the shelter. */
  lemma GuardExact(s: State, job: Job)
    requires Family(s) && Sheltered(s) && CanPush(s, job)
    ensures Sheltered(DoPush(s, job)) <==> MaySpawn(s, job.father)
  {
    var s' := DoPush(s, job);
    if MaySpawn(s, job.father) {
      StepKeepsSheltered(s, Push(job));
    }
    if Sheltered(s') {
      forall c: nat, t: nat | c < |s.tasks| && AncestorOfNew(s.jobs, job.father, c) && t < |s.tasks|
        ensures QuietAt(s, c, t) {
        DescendantGrows(s.jobs, s'.jobs, t, c);
        DescendantGrows(s.jobs, s'.jobs, job.father, c);
        assert ShelteredAt(s', |s.tasks|, c, t);
        assert LeftFilling(s', t) ==> LeftFilling(s, t);
      }
    }
  }
}
