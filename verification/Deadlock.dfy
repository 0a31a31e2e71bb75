/** Deadlock freedom: a program gets stuck only when some of its tasks hold each other up in a circle. */
module Deadlock {
  import opened Protocol
  import opened Invariants
  import opened Safety
  import opened Shelter
  import opened Ancestry
  import opened Ordering
  import opened Serial
  import opened Runs
  import opened Progress
  import opened Sums

  // ----- which jobs can hold each other up

  /** `u` can hold `t` up: as its child, which must have ended, or, when `t` spawns nothing, as an older task that it
      conflicts with and that is no ancestor. */
  predicate HoldsUp(jobs: seq<Job>, u: nat, t: nat) {
    u < |jobs| && (jobs[u].father == t || (Childless(jobs, t) && Joins(jobs, t, u)))
  }

  predicate HeldUpBy(jobs: seq<Job>, t: nat, tasks: set<nat>) {
    exists u | u in tasks :: HoldsUp(jobs, u, t)
  }

  /** Each of the tasks is held up by one of them. */
  predicate Knot(jobs: seq<Job>, tasks: set<nat>) {
    tasks != {} && forall t | t in tasks :: t < |jobs| && HeldUpBy(jobs, t, tasks)
  }

  ghost predicate Unknotted(jobs: seq<Job>) {
    forall tasks: set<nat> :: !Knot(jobs, tasks)
  }

  // ----- whoever cannot go on is held up

  function NotGone(s: State): set<nat> {
    set t: nat | t < |s.tasks| && !s.tasks[t].fin.Gone?
  }

  /** A task whose body is over has a child that has not signalled. */
  lemma ReturnedHasChild(s: State, t: nat) returns (u: nat)
    requires Family(s) && t < |s.tasks| && s.tasks[t].returned && s.tasks[t].fin.Unfinished?
    ensures u in NotGone(s) && s.jobs[u].father == t
  {
    assert ChildrenAt(s, t);
    SumNonNegative(|s.tasks|, ChildOf(s, t));
    u := SumHasTerm(|s.tasks|, ChildOf(s, t));
  }

  lemma WaitingIsHeldUp(s: State, t: nat)
    requires Inv(s) && Tidy(s) && t < |s.tasks| && s.tasks[t].status.Waiting?
    ensures HeldUpBy(s.jobs, t, NotGone(s))
  {
    var p := WaitingHasEdge(s, t);
    assert JoinsAt(s, p) && p in NotGone(s);
    forall c | 0 <= c < |s.jobs| ensures s.jobs[c].father != t {
      assert TaskOk(s, c);
    }
    assert HoldsUp(s.jobs, p, t);
  }

  /** A task that has not gone and cannot go on waits for dependencies or for children. */
  lemma StuckTaskWaits(s: State, t: nat)
    requires Inv(s) && t in NotGone(s) && !CanStep(s)
    ensures s.tasks[t].status.Waiting? || (s.tasks[t].returned && s.tasks[t].fin.Unfinished?)
  {
    var x := s.tasks[t];
    assert TaskOk(s, t);
    if x.status.Filling? {
      FillingCanStep(s, t);
    } else if !x.fin.Unfinished? {
      FinishingCanStep(s, t);
    } else if !x.status.Waiting? && !x.returned {
      var step := if x.status.Ready? then Start(t) else if |x.trace| < s.jobs[t].steps then Act(t) else Return(t);
      assert Enabled(s, step);
    }
  }

  lemma StuckTaskIsHeldUp(s: State, t: nat)
    requires Inv(s) && Tidy(s) && t in NotGone(s) && !CanStep(s)
    ensures HeldUpBy(s.jobs, t, NotGone(s))
  {
    StuckTaskWaits(s, t);
    if s.tasks[t].status.Waiting? {
      WaitingIsHeldUp(s, t);
    } else {
      InvIsFamily(s);
      var u := ReturnedHasChild(s, t);
      assert HoldsUp(s.jobs, u, t);
    }
  }

  /** When a safe run is stuck, its unfinished tasks are a knot. */
  lemma StuckIsKnot(run: seq<State>)
    requires SafeRun(run) && !CanStep(Last(run)) && NotGone(Last(run)) != {}
    ensures Knot(Last(run).jobs, NotGone(Last(run)))
  {
    SafeRunIsTidy(run);
    forall t | t in NotGone(Last(run)) ensures HeldUpBy(Last(run).jobs, t, NotGone(Last(run))) {
      StuckTaskIsHeldUp(Last(run), t);
    }
  }

  /** Deadlock freedom, for nested programs too: without a knot, some task can take a step as long as one has not
      gone. */
  lemma NeverStuck(run: seq<State>, t: nat)
    requires SafeRun(run) && Unknotted(Last(run).jobs) && t < |Last(run).tasks| && !Last(run).tasks[t].fin.Gone?
    ensures CanStep(Last(run))
  {
    assert t in NotGone(Last(run));
    if !CanStep(Last(run)) {
      StuckIsKnot(run);
    }
  }

  /** Termination: a run that can go no further has finished every task, within the bound of `RunsAreBounded`. */
  lemma MaximalRunsFinish(run: seq<State>)
    requires SafeRun(run) && Unknotted(Last(run).jobs) && !CanStep(Last(run))
    ensures forall t: nat | t < |Last(run).tasks| :: Last(run).tasks[t].status.Deallocatable?
    ensures |run| - 1 <= Budget(Last(run).jobs, |Last(run).jobs|)
  {
    RunsAreBounded(run);
    SafeRunKeeps(run);
    forall t: nat | t < |Last(run).tasks| ensures Last(run).tasks[t].status.Deallocatable? {
      if !Last(run).tasks[t].fin.Gone? {
        NeverStuck(run, t);
      }
      assert TaskOk(Last(run), t);
    }
  }

  /** Total correctness: such a run of a good program has left the memory of the sequential program. */
  lemma MaximalRunsAreSerial(run: seq<State>)
    requires SafeRun(run) && GoodProgram(Last(run).jobs) && GoodBodies(Last(run).jobs)
    requires Unknotted(Last(run).jobs) && !CanStep(Last(run))
    ensures forall t: nat | t < |Last(run).tasks| :: Last(run).tasks[t].status.Deallocatable?
    ensures Last(run).mem == SerialMemory(Last(run).jobs, run[0].mem, |Last(run).jobs|)
    ensures |run| - 1 <= Budget(Last(run).jobs, |Last(run).jobs|)
  {
    MaximalRunsFinish(run);
    SerialEquivalence(run);
  }

  // ----- programs without knots

  /** No task conflicts with one that is newer than one of its ancestors and outside the subtree of that ancestor. */
  predicate Untangled(jobs: seq<Job>) {
    forall a: nat, p: nat, t: nat | a < p < t < |jobs| :: !Tangled(jobs, a, p, t)
  }

  predicate Tangled(jobs: seq<Job>, a: nat, p: nat, t: nat)
    requires a < p < t < |jobs|
  {
    Descendant(jobs, t, a) && !Descendant(jobs, p, a) && Joins(jobs, t, p) && Childless(jobs, t)
  }

  predicate FathersOlder(jobs: seq<Job>) {
    forall t | 0 <= t < |jobs| :: NULL <= jobs[t].father < t
  }

  /** An older member of the set that is no ancestor of `t` lies behind an ancestor of `t`, outside its subtree. */
  predicate CorneredBy(jobs: seq<Job>, t: nat, p: nat)
    requires t < |jobs|
  {
    p < t && !Descendant(jobs, t, p) ==>
      exists a: nat | a < p :: Descendant(jobs, t, a) && !Descendant(jobs, p, a)
  }

  predicate Cornered(jobs: seq<Job>, t: nat, tasks: set<nat>)
    requires t < |jobs|
  {
    forall p | p in tasks :: CorneredBy(jobs, t, p)
  }

  lemma {:induction false} Oldest(tasks: set<nat>) returns (m: nat)
    requires tasks != {}
    ensures m in tasks && forall k | k in tasks :: m <= k
  {
    var n :| n in tasks;
    var rest := tasks - {n};
    m := n;
    if rest != {} {
      var m' := Oldest(rest);
      m := if n < m' then n else m';
    }
    assert forall k | k in tasks :: k == n || k in rest;
  }

  /** A cornered member of a knot is held up by a child only. */
  lemma HeldUpByChild(jobs: seq<Job>, tasks: set<nat>, t: nat) returns (u: nat)
    requires Untangled(jobs) && Knot(jobs, tasks) && t in tasks && t < |jobs| && Cornered(jobs, t, tasks)
    ensures u in tasks && u < |jobs| && jobs[u].father == t
  {
    u :| u in tasks && HoldsUp(jobs, u, t);
    if jobs[u].father != t {
      assert CorneredBy(jobs, t, u);
      var a: nat :| a < u && Descendant(jobs, t, a) && !Descendant(jobs, u, a);
      var tangled := Tangled(jobs, a, u, t);
    }
  }

  /** The oldest member below it is cornered as well. */
  lemma OldestBelowIsCornered(jobs: seq<Job>, tasks: set<nat>, t: nat, v: nat)
    requires t < v < |jobs| && Descendant(jobs, v, t) && Cornered(jobs, t, tasks)
    requires forall d | d in tasks && d < |jobs| && Descendant(jobs, d, t) :: v <= d
    ensures Cornered(jobs, v, tasks)
  {
    forall p | p in tasks ensures CorneredBy(jobs, v, p) {
      if p < v && !Descendant(jobs, v, p) {
        CorneredBelow(jobs, tasks, t, v, p);
      }
    }
  }

  lemma OldestBelow(jobs: seq<Job>, tasks: set<nat>, t: nat, u: nat) returns (v: nat)
    requires u in tasks && u < |jobs| && Descendant(jobs, u, t)
    ensures v in tasks && t < v < |jobs| && Descendant(jobs, v, t)
    ensures forall d | d in tasks && d < |jobs| && Descendant(jobs, d, t) :: v <= d
  {
    var below := set d | d in tasks && d < |jobs| && Descendant(jobs, d, t);
    assert u in below;
    v := Oldest(below);
    assert forall d | d in tasks && d < |jobs| && Descendant(jobs, d, t) :: d in below;
    DescendantIsNewer(jobs, v, t);
  }

  lemma {:induction false} NoneIsCornered(jobs: seq<Job>, tasks: set<nat>, t: nat)
    requires FathersOlder(jobs) && Untangled(jobs) && Knot(jobs, tasks)
    requires t in tasks && t < |jobs|
    ensures !Cornered(jobs, t, tasks)
    decreases |jobs| - t
  {
    if Cornered(jobs, t, tasks) {
      var u := HeldUpByChild(jobs, tasks, t);
      var v := OldestBelow(jobs, tasks, t, u);
      OldestBelowIsCornered(jobs, tasks, t, v);
      NoneIsCornered(jobs, tasks, v);
    }
  }

  lemma CorneredBelow(jobs: seq<Job>, tasks: set<nat>, t: nat, v: nat, p: nat)
    requires t < v < |jobs| && Descendant(jobs, v, t) && Cornered(jobs, t, tasks) && p in tasks
    requires p < v && !Descendant(jobs, v, p) && !Descendant(jobs, p, t)
    ensures CorneredBy(jobs, v, p)
  {
    assert CorneredBy(jobs, t, p);
    if p < t {
      if Descendant(jobs, t, p) {
        DescendantOfAncestor(jobs, v, t, p);
      }
      var a: nat :| a < p && Descendant(jobs, t, a) && !Descendant(jobs, p, a);
      DescendantOfAncestor(jobs, v, t, a);
    }
  }

  lemma {:induction false} DescendantOfAncestor(jobs: seq<Job>, d: nat, t: nat, a: nat)
    requires d < |jobs| && t < |jobs| && Descendant(jobs, d, t) && Descendant(jobs, t, a)
    ensures Descendant(jobs, d, a)
    decreases d
  {
    if jobs[d].father != t {
      DescendantOfAncestor(jobs, jobs[d].father, t, a);
    }
  }

  lemma UntangledIsUnknotted(jobs: seq<Job>)
    requires FathersOlder(jobs) && Untangled(jobs)
    ensures Unknotted(jobs)
  {
    forall tasks: set<nat> ensures !Knot(jobs, tasks) {
      if Knot(jobs, tasks) {
        var t := Oldest(tasks);
        NoneIsCornered(jobs, tasks, t);
      }
    }
  }

  /** Flat programs have no knots. */
  lemma FlatIsUnknotted(jobs: seq<Job>)
    requires FlatJobs(jobs)
    ensures Unknotted(jobs)
  {
    UntangledIsUnknotted(jobs);
  }
}
