/** What the protocol guarantees in every state of a run that is safe for cascades, and of families in every run. */
module Guarantees {
  import opened Protocol
  import opened Invariants
  import opened Preservation
  import opened Spawning
  import opened Safety
  import opened Shelter
  import opened Runs

  // ----- no dependency is lost

  /** The finishing thread of `x` has begun to drain `deps` or has freed `deps` and `args`. */
  predicate Draining(x: Task) { x.fin.Drain? || x.fin.Signal? || x.fin.Gone? }

  /** While a task may still compare with or link to an older one, that one neither drains its dependants nor
      has freed its arguments. */
  lemma NoLostDependency(run: seq<State>, t: nat)
    requires SafeRun(run) && t < |Last(run).tasks|
    ensures Engaged(Last(run).tasks[t]) ==>
              0 <= Last(run).tasks[t].at < t && !Draining(Last(run).tasks[Last(run).tasks[t].at])
  {
    SafeRunKeeps(run);
    assert TaskOk(Last(run), t) && Awaited(Last(run), t);
  }

  // ----- the dependency counter

  /** `ndependencies` is the number of undrained edges, counting one being linked. */
  lemma CounterExact(run: seq<State>, t: nat)
    requires SafeRun(run) && t < |Last(run).tasks|
    ensures Last(run).tasks[t].ndeps == Edges(Last(run), t) + BeingLinked(Last(run).tasks[t])
  {
    SafeRunKeeps(run);
    assert CounterAt(Last(run), t);
  }

  // ----- the wait loop

  /** What the flags of a task that has left `Filling` tell the wait loop. */
  lemma FlagsExact(run: seq<State>, t: nat, j: nat)
    requires SafeRun(run) && j < t < |Last(run).tasks|
    requires LeftFilling(Last(run), t) && !Last(run).tasks[t].pending
    ensures |Last(run).tasks| == |Last(run).jobs|
    ensures !Last(run).tasks[t].scape ==> LeftFilling(Last(run), j)
    ensures Last(run).tasks[t].scape ==>
              0 <= Last(run).jobs[t].father < t && (Last(run).jobs[t].father <= j ==> LeftFilling(Last(run), j))
  {
    SafeRunKeeps(run);
    var s := Last(run);
    assert TaskOk(s, t) && FlagTells(s, t);
    assert s.jobs[t].father != NULL ==> HasStarted(s, s.jobs[t].father);
  }

  lemma OwnStepPending(s: State, step: Step)
    requires Enabled(s, step) && WritesOwnRecord(step)
    ensures step.t < |Apply(s, step).tasks|
    ensures Apply(s, step).tasks[step.t].pending ==
            (s.tasks[step.t].pending || (step.TestFill? && s.tasks[s.tasks[step.t].at].status.Filling?))
  {
  }

  lemma OtherStepPending(s: State, step: Step, t: nat)
    requires Enabled(s, step) && !WritesOwnRecord(step) && t < |Apply(s, step).tasks|
    ensures Apply(s, step).tasks[t].pending == (t < |s.tasks| && s.tasks[t].pending)
  {
  }

  /** The scan of `t` sees the task it looks at still filling. */
  ghost predicate SeesFilling(s: State, s': State, t: nat) {
    Enabled(s, TestFill(t)) && s' == Apply(s, TestFill(t)) && s.tasks[s.tasks[t].at].status.Filling?
  }

  lemma StepPending(s: State, step: Step, t: nat)
    requires Enabled(s, step) && t < |Apply(s, step).tasks|
    ensures Apply(s, step).tasks[t].pending <==>
            (t < |s.tasks| && s.tasks[t].pending) || SeesFilling(s, Apply(s, step), t)
  {
    if SeesFilling(s, Apply(s, step), t) {
      OwnStepPending(s, TestFill(t));
    }
    if WritesOwnRecord(step) {
      OwnStepFrame(s, step);
      OwnStepPending(s, step);
    } else {
      OtherStepPending(s, step, t);
    }
  }

  ghost predicate SawFilling(run: seq<State>, t: nat) {
    exists i: nat | i + 1 < |run| :: SeesFilling(run[i], run[i + 1], t)
  }

  lemma LastStepPending(run: seq<State>, t: nat)
    requires IsRun(run) && |run| > 1 && t < |Last(run).tasks|
    ensures IsRun(run[..|run| - 1])
    ensures Last(run).tasks[t].pending <==>
            (t < |run[|run| - 2].tasks| && run[|run| - 2].tasks[t].pending)
            || SeesFilling(run[|run| - 2], run[|run| - 2 + 1], t)
  {
    var s, step := LastStep(run);
    StepPending(s, step, t);
  }

  /** In every run: the flag is up exactly when the scan has once seen a task filling. */
  lemma {:induction false} PendingExact(run: seq<State>, t: nat)
    requires IsRun(run) && t < |Last(run).tasks|
    ensures Last(run).tasks[t].pending <==> SawFilling(run, t)
    decreases |run|
  {
    if |run| > 1 {
      var before := run[..|run| - 1];
      LastStepPending(run, t);
      if t < |Last(before).tasks| {
        PendingExact(before, t);
      } else {
        NothingSeenYet(before, t);
      }
      SawFillingGrows(run, t);
    }
  }

  lemma SawFillingGrows(run: seq<State>, t: nat)
    requires |run| > 1
    ensures SawFilling(run, t) <==>
            SawFilling(run[..|run| - 1], t) || SeesFilling(run[|run| - 2], run[|run| - 2 + 1], t)
  {
    var before := run[..|run| - 1];
    if i: nat :| i + 1 < |run| && SeesFilling(run[i], run[i + 1], t) {
      assert i + 1 < |before| ==> SeesFilling(before[i], before[i + 1], t);
    }
    if i: nat :| i + 1 < |before| && SeesFilling(before[i], before[i + 1], t) {
      assert SeesFilling(run[i], run[i + 1], t);
    }
  }

  lemma {:induction false} NothingSeenYet(run: seq<State>, t: nat)
    requires IsRun(run) && |Last(run).tasks| <= t
    ensures !SawFilling(run, t)
    decreases |run|
  {
    if |run| > 1 {
      var s, step := LastStep(run);
      FamilyRun(run[..|run| - 1]);
      JobsGrow(s, step);
      NothingSeenYet(run[..|run| - 1], t);
      SawFillingGrows(run, t);
    }
  }

  /** When the wait loop ends, by reaching its task, by a break or after jumping to fathers, every task between
      the head it loaded and the task where it started has left `Filling`, as a walk of the whole list would
      have waited for. */
  lemma ShortcutWaitsForAll(run: seq<State>, c: nat, j: nat)
    requires SafeRun(run) && c < |Last(run).tasks| && Last(run).tasks[c].fin.Drain?
    requires Last(run).tasks[c].fin.upto < j <= Last(run).tasks[c].fin.head
    ensures j < |Last(run).tasks| && LeftFilling(Last(run), j)
  {
    SafeRunKeeps(run);
    assert TaskOk(Last(run), c) && WalkWaits(Last(run), c);
    assert LeftFilling(Last(run), j as int);
  }

  // ----- the subtree of a task

  lemma {:induction false} FamilyRun(run: seq<State>)
    requires IsRun(run)
    ensures Family(Last(run))
    decreases |run|
  {
    if |run| > 1 {
      var s, step := LastStep(run);
      FamilyRun(run[..|run| - 1]);
      StepKeepsFamily(s, step);
    }
  }

  /** In every run, nested or not and with any number of spawners: `nchildren` counts the unfinished body and the
      children that have not signalled, and a task begins to finish exactly when it reaches 0. */
  lemma ChildrenExact(run: seq<State>, f: nat)
    requires IsRun(run) && f < |Last(run).tasks|
    ensures Last(run).tasks[f].nchildren == (if Last(run).tasks[f].returned then 0 else 1) + Unsignalled(Last(run), f)
    ensures Last(run).tasks[f].nchildren == 0 <==> !Last(run).tasks[f].fin.Unfinished?
  {
    FamilyRun(run);
    assert ChildrenAt(Last(run), f);
  }

  /** In every run: once a task begins to finish, every descendant has gone through all of `finish_execution`. */
  lemma SubtreeSignalled(run: seq<State>, d: nat, a: nat)
    requires IsRun(run) && d < |Last(run).tasks| && a < |Last(run).tasks| && !Last(run).tasks[a].fin.Unfinished?
    ensures |Last(run).tasks| == |Last(run).jobs|
    ensures Descendant(Last(run).jobs, d, a) ==> Last(run).tasks[d].fin.Gone?
  {
    FamilyRun(run);
    if Descendant(Last(run).jobs, d, a) {
      SignalledSubtree(Last(run), d, a);
    }
  }

  lemma FinishedSubtree(s: State, d: nat, a: nat)
    requires Inv(s) && d < |s.tasks| && a < |s.tasks| && Descendant(s.jobs, d, a) && !s.tasks[a].status.Live()
    ensures s.tasks[d].status.Deallocatable?
  {
    InvIsFamily(s);
    assert TaskOk(s, a) && TaskOk(s, d);
    SignalledSubtree(s, d, a);
  }

  /** In a safe run: a task is `Done` only when all its descendants are `Deallocatable`. */
  lemma SubtreeComplete(run: seq<State>, d: nat, a: nat)
    requires SafeRun(run) && d < |Last(run).tasks| && a < |Last(run).tasks| && !Last(run).tasks[a].status.Live()
    ensures |Last(run).tasks| == |Last(run).jobs|
    ensures Descendant(Last(run).jobs, d, a) ==> Last(run).tasks[d].status.Deallocatable?
  {
    SafeRunKeeps(run);
    if Descendant(Last(run).jobs, d, a) {
      FinishedSubtree(Last(run), d, a);
    }
  }

  /** Whatever is released by a task starts after the whole subtree of that task. */
  lemma ReleasedAfterSubtree(run: seq<State>, a: nat, d: nat)
    requires SafeRun(run) && Enabled(Last(run), Release(a)) && d < |Last(run).tasks| && Descendant(Last(run).jobs, d, a)
    ensures Last(run).tasks[d].status.Deallocatable?
    ensures !Last(run).tasks[Last(run).tasks[a].deps[Last(run).tasks[a].fin.k]].status.Started()
  {
    SafeRunKeeps(run);
    assert TaskOk(Last(run), a);
    var s := Last(run);
    assert SafeRun(run) ==> CascadeSafe(run[|run| - 1]);
    ReleaseTarget(s, a);
    FinishedSubtree(s, d, a);
  }

  // ----- what one step can do to one task

  /** The status advances by one, or jumps from `Filling` to `Ready`, or stays. */
  predicate Advances(x: Task, x': Task) {
    || x'.status.Rank() == x.status.Rank()
    || x'.status.Rank() == x.status.Rank() + 1
    || (x.status.Filling? && x'.status.Ready?)
  }

  /** Dependants are never added to a task that has begun to drain. */
  predicate DrainsOnly(x: Task, x': Task) {
    Draining(x) ==> Draining(x') && (x'.deps == x.deps || (x'.deps == [] && x'.fin.Signal?))
  }

  /** A task is posted once: when it leaves `Filling` without dependencies, or loses its last one while waiting. */
  predicate PostsOnce(x: Task, x': Task) {
    if x'.posts == x.posts then !x.status.Posted() ==> !x'.status.Posted()
    else
      && x.posts == 0 && x'.posts == 1 && x'.status.Ready?
      && ((x.status.Filling? && x.fill == Exit(true) && x.ndeps == 0) || (x.status.Waiting? && x.ndeps == 1))
  }

  predicate Moves(x: Task, x': Task) {
    Advances(x, x') && DrainsOnly(x, x') && PostsOnce(x, x') && (x.status.Filling? ==> x'.ndeps >= x.ndeps)
  }

  predicate MovesAt(s: State, s': State, p: nat)
    requires p < |s.tasks| <= |s'.tasks|
  {
    Moves(s.tasks[p], s'.tasks[p])
  }

  lemma ScanStepMoves(s: State, step: Step)
    requires Core(s) && Enabled(s, step) && OfScan(step)
    ensures step.t < |Apply(s, step).tasks| && Moves(s.tasks[step.t], Apply(s, step).tasks[step.t])
  {
    assert TaskOk(s, step.t);
  }

  lemma ReturnMoves(s: State, t: nat)
    requires Inv(s) && Enabled(s, Return(t))
    ensures Moves(s.tasks[t], Signalled(s.tasks[t].(returned := true), t))
  {
    assert TaskOk(s, t) && ChildrenAt(s, t);
  }

  lemma OtherStepMoves(s: State, step: Step)
    requires Core(s) && Enabled(s, step) && WritesOwnRecord(step) && !OfScan(step) && !step.Return?
    ensures step.t < |Apply(s, step).tasks| && Moves(s.tasks[step.t], Apply(s, step).tasks[step.t])
  {
    assert TaskOk(s, step.t);
  }

  lemma OwnStepMoves(s: State, step: Step, p: nat)
    requires Inv(s) && Enabled(s, step) && WritesOwnRecord(step) && p < |s.tasks|
    ensures p < |Apply(s, step).tasks| && Moves(s.tasks[p], Apply(s, step).tasks[p])
  {
    OwnStepFrame(s, step);
    if p == step.t {
      if OfScan(step) {
        ScanStepMoves(s, step);
      } else if step.Return? {
        ReturnMoves(s, p);
      } else {
        OtherStepMoves(s, step);
      }
    }
  }

  lemma LinkMoves(s: State, t: nat, p: nat)
    requires Inv(s) && Enabled(s, Link(t)) && p < |s.tasks|
    ensures MovesAt(s, DoLink(s, t), p)
  {
    assert TaskOk(s, t) && Awaited(s, t);
  }

  lemma ReleaseMoves(s: State, t: nat, p: nat)
    requires Inv(s) && CascadeSafe(s) && Enabled(s, Release(t)) && p < |s.tasks|
    ensures MovesAt(s, DoRelease(s, t), p)
  {
    ReleaseTarget(s, t);
    assert TaskOk(s, t) && TaskOk(s, s.tasks[t].deps[s.tasks[t].fin.k]);
  }

  lemma NotifyMoves(s: State, t: nat, p: nat)
    requires Inv(s) && Enabled(s, Notify(t)) && p < |s.tasks|
    ensures MovesAt(s, DoNotify(s, t), p)
  {
    var f := s.jobs[t].father;
    assert TaskOk(s, t);
    if f != NULL {
      FatherCounts(s, t);
      assert TaskOk(s, f);
    }
  }

  lemma Moved(s: State, step: Step, p: nat)
    requires Inv(s) && CascadeSafe(s) && Enabled(s, step) && p < |s.tasks|
    ensures p < |Apply(s, step).tasks|
    ensures MovesAt(s, Apply(s, step), p)
  {
    match step
    case Push(_) =>
    case Link(t) => LinkMoves(s, t, p);
    case Release(t) => ReleaseMoves(s, t, p);
    case Notify(t) => NotifyMoves(s, t, p);
    case _ => OwnStepMoves(s, step, p);
  }

  lemma AdvancesLive(x: Task, x': Task)
    requires Advances(x, x') && x'.status.Live()
    ensures x.status.Live()
  {
  }

  /** No step brings a finished task back. */
  lemma LiveBefore(s: State, step: Step, p: nat)
    requires Inv(s) && CascadeSafe(s) && Enabled(s, step) && p < |s.tasks|
    ensures p < |Apply(s, step).tasks| && (Apply(s, step).tasks[p].status.Live() ==> s.tasks[p].status.Live())
  {
    Moved(s, step, p);
    if Apply(s, step).tasks[p].status.Live() {
      AdvancesLive(s.tasks[p], Apply(s, step).tasks[p]);
    }
  }

  /** In a safe run, a step only advances statuses, posts a task at most once in its life, never lowers the
      counter of a filling task, and never adds a dependant to a task that drains. */
  lemma StepMoves(run: seq<State>, step: Step, p: nat)
    requires SafeRun(run) && Enabled(Last(run), step) && p < |Last(run).tasks|
    ensures p < |Apply(Last(run), step).tasks|
    ensures MovesAt(Last(run), Apply(Last(run), step), p)
  {
    SafeRunKeeps(run);
    assert CascadeSafe(run[|run| - 1]);
    Moved(Last(run), step, p);
  }
}
