/** The main results, over every run of the runtime. */
module Runs {
  import opened Regions
  import opened Protocol
  import opened Invariants
  import opened Safety
  import opened Shelter
  import opened Ancestry
  import opened Ordering
  import opened Serial

  ghost predicate Init(s: State) {
    s.jobs == [] && s.tasks == []
  }

  ghost predicate IsRun(run: seq<State>) {
    && |run| > 0
    && Init(run[0])
    && forall i: nat | i + 1 < |run| :: Next(run[i], run[i + 1])
  }

  function Last(run: seq<State>): State
    requires |run| > 0
  {
    run[|run| - 1]
  }

  lemma LastStep(run: seq<State>) returns (s: State, step: Step)
    requires IsRun(run) && |run| > 1
    ensures IsRun(run[..|run| - 1]) && s == Last(run[..|run| - 1])
    ensures Enabled(s, step) && Last(run) == Apply(s, step)
  {
    s := run[|run| - 2];
    assert Next(run[|run| - 2], run[|run| - 2 + 1]);
    step :| Enabled(s, step) && Last(run) == Apply(s, step);
  }

  lemma Take(run: seq<State>, step: Step) returns (run': seq<State>)
    requires IsRun(run) && Enabled(Last(run), step)
    ensures IsRun(run') && run' == run + [Apply(Last(run), step)]
  {
    run' := run + [Apply(Last(run), step)];
    forall i: nat | i + 1 < |run'| ensures Next(run'[i], run'[i + 1]) {
      if i + 1 < |run| {
        assert Next(run[i], run[i + 1]);
      } else {
        assert run'[i] == Last(run);
      }
    }
  }

  // ----- which runs are safe for cascades

  ghost predicate SafeRun(run: seq<State>) {
    IsRun(run) && forall i: nat | i < |run| :: CascadeSafe(run[i])
  }

  /** The invariant of every nested or flat run that is safe for cascades. */
  lemma {:induction false} SafeRunKeeps(run: seq<State>)
    requires SafeRun(run)
    ensures Inv(Last(run))
    decreases |run|
  {
    if |run| > 1 {
      SafeRunKeeps(run[..|run| - 1]);
      var s, step := LastStep(run);
      StepKeeps(s, step);
    }
  }

  /** The next step of a run in which every spawn meets the guard. */
  ghost predicate GuardedNext(s: State, s': State) {
    exists step :: Enabled(s, step) && s' == Apply(s, step) && (step.Push? ==> MaySpawn(s, step.job.father))
  }

  ghost predicate IsGuardedRun(run: seq<State>) {
    && |run| > 0
    && Init(run[0])
    && forall i: nat | i + 1 < |run| :: GuardedNext(run[i], run[i + 1])
  }

  lemma GuardedIsRun(run: seq<State>)
    requires IsGuardedRun(run)
    ensures IsRun(run)
  {
    forall i: nat | i + 1 < |run| ensures Next(run[i], run[i + 1]) {
      assert GuardedNext(run[i], run[i + 1]);
    }
  }

  lemma GuardedStepKeeps(s: State, s': State)
    requires Inv(s) && Sheltered(s) && GuardedNext(s, s')
    ensures Inv(s') && Sheltered(s')
  {
    var step :| Enabled(s, step) && s' == Apply(s, step) && (step.Push? ==> MaySpawn(s, step.job.father));
    InvIsFamily(s);
    ShelteredIsSafe(s);
    StepKeeps(s, step);
    StepKeepsSheltered(s, step);
  }

  lemma {:induction false} GuardedRunKeeps(run: seq<State>)
    requires IsGuardedRun(run)
    ensures Inv(Last(run)) && Sheltered(Last(run)) && CascadeSafe(Last(run))
    decreases |run|
  {
    if |run| > 1 {
      GuardedRunKeeps(run[..|run| - 1]);
      assert GuardedNext(run[|run| - 2], run[|run| - 2 + 1]);
      GuardedStepKeeps(run[|run| - 2], Last(run));
    }
    ShelteredIsSafe(Last(run));
  }

  /** A program whose spawns all meet the guard is safe for cascades: nested or flat, with any number of spawners. */
  lemma {:induction false} GuardedRunsAreSafe(run: seq<State>)
    requires IsGuardedRun(run)
    ensures SafeRun(run)
  {
    GuardedIsRun(run);
    forall i: nat | i < |run| ensures CascadeSafe(run[i]) {
      GuardedRunKeeps(run[..i + 1]);
    }
  }

  predicate FlatJobs(jobs: seq<Job>) {
    forall t | 0 <= t < |jobs| :: jobs[t].father == NULL
  }

  lemma FlatBefore(s: State, step: Step)
    requires Enabled(s, step) && FlatJobs(Apply(s, step).jobs)
    ensures FlatJobs(s.jobs) && (step.Push? ==> step.job.father == NULL && MaySpawn(s, step.job.father))
  {
    var jobs' := Apply(s, step).jobs;
    JobsGrow(s, step);
    assert forall t | 0 <= t < |s.jobs| :: s.jobs[t] == jobs'[t];
    assert step.Push? ==> step.job == jobs'[|s.jobs|];
  }

  /** Spawns from outside always meet the guard. */
  lemma {:induction false} FlatRunsAreGuarded(run: seq<State>)
    requires IsRun(run) && FlatJobs(Last(run).jobs)
    ensures IsGuardedRun(run)
    decreases |run|
  {
    if |run| > 1 {
      var s, step := LastStep(run);
      var before := run[..|run| - 1];
      FlatBefore(s, step);
      FlatRunsAreGuarded(before);
      assert run == before + [Apply(Last(before), step)];
      GuardedGrows(before, step, run);
    }
  }

  lemma GuardedGrows(before: seq<State>, step: Step, run: seq<State>)
    requires IsGuardedRun(before) && Enabled(Last(before), step)
    requires step.Push? ==> MaySpawn(Last(before), step.job.father)
    requires run == before + [Apply(Last(before), step)]
    ensures IsGuardedRun(run)
  {
    forall i: nat | i + 1 < |run| ensures GuardedNext(run[i], run[i + 1]) {
      if i + 1 < |before| {
        assert GuardedNext(before[i], before[i + 1]);
      } else {
        assert run[i] == Last(before);
      }
    }
  }

  lemma TakeGuarded(run: seq<State>, step: Step) returns (run': seq<State>)
    requires IsGuardedRun(run) && Enabled(Last(run), step)
    requires step.Push? ==> MaySpawn(Last(run), step.job.father)
    ensures IsGuardedRun(run') && run' == run + [Apply(Last(run), step)]
  {
    run' := run + [Apply(Last(run), step)];
    GuardedGrows(run, step, run');
  }

  lemma FlatRunsAreSafe(run: seq<State>)
    requires IsRun(run) && FlatJobs(Last(run).jobs)
    ensures SafeRun(run)
  {
    FlatRunsAreGuarded(run);
    GuardedRunsAreSafe(run);
  }

  lemma FlatRun(run: seq<State>)
    requires IsRun(run) && FlatJobs(Last(run).jobs)
    ensures Inv(Last(run)) && CascadeSafe(Last(run))
  {
    FlatRunsAreGuarded(run);
    GuardedRunKeeps(run);
  }

  /** No task is pushed while another one is filling. */
  predicate OneSpawner(s: State) {
    forall t: nat | t + 1 < |s.tasks| :: LeftFilling(s, t)
  }

  lemma OneSpawnerMeetsGuard(s: State, job: Job)
    requires |s.tasks| == |s.jobs| && CanPush(s, job) && OneSpawner(DoPush(s, job))
    ensures MaySpawn(s, job.father)
  {
    forall c: nat, t: nat | c < |s.tasks| && t < |s.tasks| ensures QuietAt(s, c, t) {
      assert LeftFilling(DoPush(s, job), t);
    }
  }

  lemma OneSpawnerStep(s: State, step: Step)
    requires Enabled(s, step) && OneSpawner(Apply(s, step))
    ensures step.Push? ==> MaySpawn(s, step.job.father)
  {
    if step.Push? {
      OneSpawnerMeetsGuard(s, step.job);
    }
  }

  /** One thread spawning at a time meets the guard too. */
  lemma {:induction false} OneSpawnerRunsAreGuarded(run: seq<State>)
    requires IsRun(run) && forall i: nat | i < |run| :: OneSpawner(run[i])
    ensures IsGuardedRun(run)
    decreases |run|
  {
    if |run| > 1 {
      var before := run[..|run| - 1];
      var s, step := LastStep(run);
      OneSpawnerRunsAreGuarded(before);
      assert OneSpawner(run[|run| - 1]) && run == before + [Apply(Last(before), step)];
      OneSpawnerStep(s, step);
      GuardedGrows(before, step, run);
    }
  }

  // ----- ordering and memory

  lemma {:induction false} SafeRunIsTidy(run: seq<State>)
    requires SafeRun(run)
    ensures Inv(Last(run)) && Tidy(Last(run))
    decreases |run|
  {
    SafeRunKeeps(run);
    if |run| > 1 {
      var s, step := LastStep(run);
      SafeRunIsTidy(run[..|run| - 1]);
      StepKeepsTidy(s, step);
    }
  }

  lemma {:induction false} GoodRun(run: seq<State>)
    requires SafeRun(run) && GoodProgram(Last(run).jobs)
    ensures Inv(Last(run)) && Tidy(Last(run)) && Ordered(Last(run))
    decreases |run|
  {
    SafeRunIsTidy(run);
    if |run| > 1 {
      var s, step := LastStep(run);
      JobsGrow(s, step);
      GoodPrefix(s.jobs, Last(run).jobs);
      GoodRun(run[..|run| - 1]);
      assert CascadeSafe(run[|run| - 2]);
      StepKeepsOrdered(s, step);
    }
  }

  lemma GoodPrefix(jobs: seq<Job>, jobs': seq<Job>)
    requires jobs <= jobs' && GoodProgram(jobs')
    ensures GoodProgram(jobs)
  {
    forall t | 0 <= t < |jobs| ensures OnePermission(jobs[t].args) {
      assert OnePermission(jobs'[t].args);
    }
    forall a: nat, b: nat | a < b < |jobs|
      ensures (!Descendant(jobs, b, a) ==> GoodPair(jobs[a].args, jobs[b].args)) && Inherits(jobs, a, b) {
      DescendantGrows(jobs, jobs', b, a);
      assert Inherits(jobs', a, b) && jobs'[a] == jobs[a] && jobs'[b] == jobs[b];
    }
  }

  lemma GoodBodiesPrefix(jobs: seq<Job>, jobs': seq<Job>)
    requires jobs <= jobs' && GoodBodies(jobs')
    ensures GoodBodies(jobs)
  {
    forall t: nat | t < |jobs| ensures WellBehaved(jobs[t]) {
      assert WellBehaved(jobs'[t]) && jobs'[t] == jobs[t];
    }
    forall a: nat, b: nat | a < b < |jobs| ensures Apart(jobs, a, b) {
      assert Apart(jobs', a, b) && jobs'[a] == jobs[a] && jobs'[b] == jobs[b];
      if Childless(jobs', a) {
        ChildlessBefore(jobs, jobs', a);
      }
    }
  }

  lemma FlatSpawnersApart(jobs: seq<Job>)
    requires FlatJobs(jobs)
    ensures SpawnersApart(jobs)
  {
    forall a: nat, b: nat | a < b < |jobs| ensures Apart(jobs, a, b) {
      assert Childless(jobs, a);
    }
  }

  lemma {:induction false} GoodRunMemory(run: seq<State>)
    requires SafeRun(run) && GoodProgram(Last(run).jobs) && GoodBodies(Last(run).jobs)
    ensures Inv(Last(run)) && MemoryOk(Last(run), run[0].mem)
    decreases |run|
  {
    GoodRun(run);
    if |run| > 1 {
      var s, step := LastStep(run);
      JobsGrow(s, step);
      GoodPrefix(s.jobs, Last(run).jobs);
      GoodBodiesPrefix(s.jobs, Last(run).jobs);
      assert step.Push? ==> WellBehaved(Last(run).jobs[|s.jobs|]);
      GoodRun(run[..|run| - 1]);
      GoodRunMemory(run[..|run| - 1]);
      assert CascadeSafe(run[|run| - 2]);
      StepKeepsMemory(s, run[0].mem, step);
    }
  }

  /** Serial equivalence, for nested programs too: once every task has finished, memory is what running the tasks one
      by one in the order in which they were spawned leaves. */
  lemma SerialEquivalence(run: seq<State>)
    requires SafeRun(run) && GoodProgram(Last(run).jobs) && GoodBodies(Last(run).jobs)
    requires forall t: nat | t < |Last(run).tasks| :: !Last(run).tasks[t].status.Live()
    ensures Last(run).mem == SerialMemory(Last(run).jobs, run[0].mem, |Last(run).jobs|)
  {
    GoodRunMemory(run);
    var s, m := Last(run), SerialMemory(Last(run).jobs, run[0].mem, |Last(run).jobs|);
    forall place: Place ensures (place in s.mem <==> place in m) && (place in m ==> s.mem[place] == m[place]) {
      assert SettledAgrees(s, run[0].mem, place, |s.tasks|);
    }
  }

  /** At every moment of a run, each body has read exactly what it reads in the sequential program. */
  lemma BodiesSeeSerialValues(run: seq<State>, t: nat)
    requires SafeRun(run) && GoodProgram(Last(run).jobs) && GoodBodies(Last(run).jobs) && t < |Last(run).tasks|
    ensures |Last(run).tasks| == |Last(run).jobs|
    ensures Last(run).tasks[t].trace ==
            RunBody(Last(run).jobs[t], SerialMemory(Last(run).jobs, run[0].mem, t), |Last(run).tasks[t].trace|).1
  {
    GoodRunMemory(run);
    assert TraceAgrees(Last(run), run[0].mem, t);
  }

  /** A task never runs together with an older one that it conflicts with and that spawns nothing; it is not even
      posted before that one is done. */
  lemma ConflictsExclude(run: seq<State>, a: nat, b: nat)
    requires SafeRun(run) && GoodProgram(Last(run).jobs) && a < b < |Last(run).tasks|
    ensures |Last(run).tasks| == |Last(run).jobs|
    ensures Opposed(Last(run).jobs, b, a) && Last(run).tasks[b].status.Posted() ==> !Last(run).tasks[a].status.Live()
  {
    GoodRun(run);
    if Opposed(Last(run).jobs, b, a) && Last(run).tasks[b].status.Posted() {
      PostedMeansClear(Last(run), b, a);
    }
  }

  /** `b` reaches `a` through live edges, the last of which may be a comparison still to be made. */
  predicate Reaches(s: State, b: nat, a: nat)
    requires a < b < |s.tasks| == |s.jobs|
    decreases b
  {
    Edge(s, b, a) || WillFind(s, b, a) || exists p: nat | a < p < b :: Edge(s, b, p) && Reaches(s, p, a)
  }

  lemma {:induction false} HeldReaches(s: State, b: nat, a: nat)
    requires Core(s) && Ordered(s) && a < b < |s.tasks|
    requires Opposed(s.jobs, b, a) && s.tasks[a].status.Live()
    ensures Reaches(s, b, a)
    decreases b
  {
    assert OrderedPair(s, b, a);
    if !Edge(s, b, a) && !WillFind(s, b, a) {
      var p: nat :| a < p < b && Through(s, b, p, a);
      HeldReaches(s, p, a);
    }
  }

  /** The ordering invariant: an older task that `b` is opposed to has finished, or `b` reaches it. */
  lemma OrderingInvariant(run: seq<State>, a: nat, b: nat)
    requires SafeRun(run) && GoodProgram(Last(run).jobs) && a < b < |Last(run).tasks|
    ensures |Last(run).tasks| == |Last(run).jobs|
    ensures Opposed(Last(run).jobs, b, a) ==> !Last(run).tasks[a].status.Live() || Reaches(Last(run), b, a)
  {
    GoodRun(run);
    if Opposed(Last(run).jobs, b, a) && Last(run).tasks[a].status.Live() {
      HeldReaches(Last(run), b, a);
    }
  }

  /** A chain of live dependency edges. */
  predicate Chain(s: State, b: nat, a: nat)
    requires a < b < |s.tasks|
    decreases b
  {
    Edge(s, b, a) || exists p: nat | a < p < b :: Edge(s, b, p) && Chain(s, p, a)
  }

  lemma {:induction false} HeldChain(s: State, b: nat, a: nat)
    requires Core(s) && Ordered(s) && a < b < |s.tasks| && forall t: int | a < t <= b :: LeftFilling(s, t)
    requires Opposed(s.jobs, b, a) && s.tasks[a].status.Live()
    ensures Chain(s, b, a)
    decreases b
  {
    assert OrderedPair(s, b, a) && LeftFilling(s, b as int);
    if !Edge(s, b, a) {
      var p: nat :| a < p < b && Through(s, b, p, a);
      HeldChain(s, p, a);
    }
  }

  /** Once the newer tasks have left `Filling`, an older task that `b` is opposed to has finished or a chain of live
      edges leads to it. */
  lemma OrderedByEdges(run: seq<State>, a: nat, b: nat)
    requires SafeRun(run) && GoodProgram(Last(run).jobs) && a < b < |Last(run).tasks|
    requires forall t: int | a < t <= b :: LeftFilling(Last(run), t)
    ensures |Last(run).tasks| == |Last(run).jobs|
    ensures Opposed(Last(run).jobs, b, a) ==> !Last(run).tasks[a].status.Live() || Chain(Last(run), b, a)
  {
    GoodRun(run);
    if Opposed(Last(run).jobs, b, a) && Last(run).tasks[a].status.Live() {
      HeldChain(Last(run), b, a);
    }
  }
}
