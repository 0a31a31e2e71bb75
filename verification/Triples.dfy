/** Three tasks, the second spawned from outside or by the first: exactly when the third can run together with the
    first. */
module Triples {
  import opened Regions
  import opened ArgScan
  import opened Containment
  import opened Protocol
  import opened Invariants
  import opened Pruning
  import opened Safety
  import opened Shelter
  import opened Ancestry
  import opened Ordering
  import opened Runs
  import opened Scenarios
  import opened Guarantees
  import opened Pairs

  /** What the scan of the third task has left to compare when it has linked itself to the second. */
  ghost function Past(b: Job, w: Job): seq<Region> {
    match Scan(b.args, w.args)
    case None => w.args
    case Some(hit) =>
      if b.args[hit.0].wr && Swallowed(w.args[hit.1], b.args, hit.0) then w.args[..hit.1] + w.args[hit.1 + 1..]
      else w.args
  }

  lemma PastIsPruned(b: Job, w: Job)
    requires Arguments(b.args) && Arguments(w.args) && Scan(b.args, w.args).Some?
    ensures var hit := Scan(b.args, w.args).value; Past(b, w) == Prune(b.args, hit.0, w.args, hit.1)
  {
    var hit := Scan(b.args, w.args).value;
    PruneExact(b.args, hit.0, w.args, hit.1);
  }

  /** The second task can run while the first one runs. */
  predicate RunsBeside(a: Job, b: Job) { b.father == 0 || Scan(a.args, b.args).None? }

  /** The scan of the third task can leave the first one behind without waiting for it: directly when the second one
      has ended, or after linking to the second one; or, when the second one waits for the first, without linking. */
  ghost predicate Passes(a: Job, b: Job, w: Job) {
    if RunsBeside(a, b) then Scan(a.args, w.args).None? || Scan(a.args, Past(b, w)).None?
    else Scan(b.args, w.args).None? && Scan(a.args, w.args).None?
  }

  predicate Triple(a: Job, b: Job, w: Job) {
    RootJob(a) && RootJob(w) && (b.father == NULL || b.father == 0) && Arguments(b.args)
  }

  // ----- such runs meet the guard

  lemma GuardOfThree(s: State, job: Job)
    requires CanPush(s, job) && |s.tasks| == |s.jobs| && (job.father != NULL ==> |s.jobs| == 1)
    ensures MaySpawn(s, job.father)
  {
    forall c: nat | c < |s.tasks| && AncestorOfNew(s.jobs, job.father, c) ensures Quiet(s, c) {
      forall t: nat | t < |s.tasks| ensures QuietAt(s, c, t) {
      }
    }
  }

  lemma {:induction false} TripleRunIsGuarded(run: seq<State>, a: Job, b: Job, w: Job)
    requires IsRun(run) && Triple(a, b, w) && Last(run).jobs <= [a, b, w]
    ensures IsGuardedRun(run)
    decreases |run|
  {
    if |run| > 1 {
      var s, step := LastStep(run);
      var before := run[..|run| - 1];
      JobsGrow(s, step);
      TripleRunIsGuarded(before, a, b, w);
      assert run == before + [Apply(Last(before), step)];
      if step.Push? {
        assert step.job == Last(run).jobs[|s.jobs|] == [a, b, w][|s.jobs|];
        GuardOfThree(s, step.job);
      }
      GuardedGrows(before, step, run);
    }
  }

  // ----- what holds the third task back

  predicate WillMeetFirst(s: State)
    requires |s.tasks| == |s.jobs| == 3
  {
    var x := s.tasks[2];
    && !x.scape
    && ((x.at == 0 && x.fill.Linking?)
        || (((x.at == 1 && x.fill.Test?) || (x.at == 0 && (x.fill.Visit? || x.fill.Examine?)))
            && Scan(s.jobs[0].args, x.argv).Some?))
  }

  predicate ThirdHeld(s: State)
    requires |s.tasks| == |s.jobs| == 3
  {
    AtNext(s, 2) || WillMeetFirst(s) || Edge(s, 2, 0) || (!RunsBeside(s.jobs[0], s.jobs[1]) && Edge(s, 2, 1))
  }

  ghost predicate Blocked(s: State) {
    |s.tasks| == |s.jobs| && (|s.tasks| == 3 && s.tasks[0].status.Live() ==> ThirdHeld(s))
  }

  /** Jobs for which the third task has to wait. */
  ghost predicate MustWait(jobs: seq<Job>) {
    |jobs| == 3 && Triple(jobs[0], jobs[1], jobs[2]) && !Passes(jobs[0], jobs[1], jobs[2])
  }

  ghost predicate Three(s: State) { |s.tasks| == |s.jobs| == 3 && MustWait(s.jobs) }

  /** While the first task is live, the second one is live too unless it runs beside it. */
  lemma SecondIsLive(s: State)
    requires Three(s) && Inv(s) && FollowersHeld(s) && s.tasks[0].status.Live()
    requires !RunsBeside(s.jobs[0], s.jobs[1])
    ensures s.tasks[1].status.Live()
  {
    assert FollowerAt(s, 1) && TaskOk(s, 1);
    if s.tasks[1].status.Posted() {
      NoEdgeOfPosted(s, 1, 0);
    }
  }

  lemma ReadHolds(s: State)
    requires Three(s) && Inv(s) && FreshAt(s, 2) && FollowersHeld(s)
    requires s.tasks[0].status.Live() && InScan(s, 2, Visit) && !s.tasks[2].scape && (AtNext(s, 2) || WillMeetFirst(s))
    ensures |DoRead(s, 2).tasks| == |DoRead(s, 2).jobs| == 3 && ThirdHeld(DoRead(s, 2))
  {
    assert TaskOk(s, 2);
    if !RunsBeside(s.jobs[0], s.jobs[1]) {
      SecondIsLive(s);
    }
  }

  lemma MatchHolds(s: State)
    requires Three(s) && FreshAt(s, 2) && InScan(s, 2, Examine)
    requires AtNext(s, 2) || WillMeetFirst(s)
    ensures |DoMatch(s, 2).tasks| == |DoMatch(s, 2).jobs| == 3 && ThirdHeld(DoMatch(s, 2))
  {
  }

  lemma LinkHolds(s: State)
    requires Three(s) && Inv(s) && FreshAt(s, 2) && Enabled(s, Link(2))
    requires AtNext(s, 2) || WillMeetFirst(s)
    ensures |DoLink(s, 2).tasks| == |DoLink(s, 2).jobs| == 3 && ThirdHeld(DoLink(s, 2))
  {
    LinkLinks(s, 2, 2, s.tasks[2].at);
    if AtNext(s, 2) {
      PastIsPruned(s.jobs[1], s.jobs[2]);
    }
  }

  lemma ThirdStepHolds(s: State, step: Step)
    requires Three(s) && Inv(s) && FreshAt(s, 2) && FollowersHeld(s)
    requires s.tasks[0].status.Live() && Enabled(s, step) && Inserts(step, 2) && (AtNext(s, 2) || WillMeetFirst(s))
    ensures |Apply(s, step).tasks| == |Apply(s, step).jobs| == 3 && ThirdHeld(Apply(s, step))
  {
    match step
    case Read(_) => ReadHolds(s);
    case Match(_) => MatchHolds(s);
    case Link(_) => LinkHolds(s);
    case _ =>
  }

  lemma EdgeHolds(s: State, step: Step)
    requires Three(s) && Inv(s) && FollowersHeld(s) && s.tasks[0].status.Live()
    requires Enabled(s, step) && !step.Push? && ThirdHeld(s) && !AtNext(s, 2) && !WillMeetFirst(s)
    ensures |Apply(s, step).tasks| == |Apply(s, step).jobs| == 3 && ThirdHeld(Apply(s, step))
  {
    JobsGrow(s, step);
    if Edge(s, 2, 0) {
      LiveKeepsEdge(s, step, 2, 0);
    } else {
      SecondIsLive(s);
      LiveKeepsEdge(s, step, 2, 1);
    }
  }

  lemma StepKeepsBlocked(s: State, step: Step)
    requires Inv(s) && CascadeSafe(s) && Fresh(s) && FollowersHeld(s) && Blocked(s) && Enabled(s, step)
    requires |Apply(s, step).jobs| == 3 ==> MustWait(Apply(s, step).jobs)
    ensures Blocked(Apply(s, step))
  {
    JobsGrow(s, step);
    if !step.Push? && |s.tasks| == 3 {
      LiveBefore(s, step, 0);
      if s.tasks[0].status.Live() {
        if !AtNext(s, 2) && !WillMeetFirst(s) {
          EdgeHolds(s, step);
        } else if Inserts(step, 2) {
          assert FreshAt(s, 2);
          ThirdStepHolds(s, step);
        } else {
          ScanKept(s, step, 2);
        }
      }
    }
  }

  lemma {:induction false} RunKeepsBlocked(run: seq<State>, a: Job, b: Job, w: Job)
    requires IsRun(run) && Triple(a, b, w) && !Passes(a, b, w) && Last(run).jobs <= [a, b, w]
    ensures SafeRun(run) && Blocked(Last(run))
    decreases |run|
  {
    TripleRunIsGuarded(run, a, b, w);
    GuardedRunsAreSafe(run);
    if |run| > 1 {
      var before := run[..|run| - 1];
      var s, step := LastStep(run);
      JobsGrow(s, step);
      RunKeepsBlocked(before, a, b, w);
      SafeRunHoldsFollowers(before);
      SafeRunIsFresh(before);
      assert CascadeSafe(before[|before| - 1]);
      StepKeepsBlocked(s, step);
    }
  }

  ghost predicate ThirdRunning(run: seq<State>, a: Job, b: Job, w: Job) {
    && IsRun(run) && Last(run).jobs == [a, b, w] && |Last(run).tasks| == 3
    && Last(run).tasks[0].status.Running? && Last(run).tasks[2].status.Running?
  }

  lemma ThirdMustWait(run: seq<State>, a: Job, b: Job, w: Job)
    requires Triple(a, b, w) && !Passes(a, b, w)
    ensures !ThirdRunning(run, a, b, w)
  {
    if ThirdRunning(run, a, b, w) {
      var s := Last(run);
      RunKeepsBlocked(run, a, b, w);
      SafeRunKeeps(run);
      assert TaskOk(s, 2);
      NoEdgeOfPosted(s, 2, 0);
      NoEdgeOfPosted(s, 2, 1);
    }
  }

  // ----- runs in which it does not wait

  /** The first task when the second one has been spawned. */
  function First(a: Job, b: Job): Task { Begun(a, if b.father == 0 then 2 else 1) }

  lemma SecondIsPushed(a: Job, b: Job, w: Job) returns (run: seq<State>)
    requires Triple(a, b, w)
    ensures IsGuardedRun(run) && Last(run) == State([a, b], [First(a, b), NewTask(b, 0)], map[])
  {
    run := FirstBegins(a);
    GuardOfThree(Last(run), b);
    run := TakeGuarded(run, Push(b));
    assert Last(run).tasks == [First(a, b), NewTask(b, 0)];
  }

  lemma SecondPassesFirst(a: Job, b: Job, w: Job) returns (run: seq<State>)
    requires Triple(a, b, w) && RunsBeside(a, b)
    ensures IsGuardedRun(run)
    ensures Last(run) == State([a, b], [First(a, b), NewTask(b, 0).(at := NULL, ancestor := NULL)], map[])
  {
    run := SecondIsPushed(a, b, w);
    var f, x := First(a, b), NewTask(b, 0);
    run := TakeGuarded(run, Read(1));
    if b.father == NULL {
      assert Last(run).tasks == [f, x.(fill := Examine)];
      run := TakeGuarded(run, Match(1));
      assert Last(run).tasks == [f, x.(fill := Test)];
      run := TakeGuarded(run, TestFill(1));
    }
    assert Last(run).tasks == [f, x.(at := NULL, ancestor := NULL)];
  }

  lemma SecondBegins(a: Job, b: Job, w: Job) returns (run: seq<State>)
    requires Triple(a, b, w) && RunsBeside(a, b)
    ensures IsGuardedRun(run) && Last(run) == State([a, b], [First(a, b), Begun(b, 1)], map[])
  {
    run := SecondPassesFirst(a, b, w);
    var f, x := First(a, b), NewTask(b, 0).(at := NULL, ancestor := NULL);
    run := TakeGuarded(run, Decide(1));
    assert Last(run).tasks == [f, x.(fill := Exit(true))];
    run := TakeGuarded(run, Leave(1));
    assert Last(run).tasks == [f, Begun(b, 1).(status := Ready)];
    run := TakeGuarded(run, Start(1));
    assert Last(run).tasks == [f, Begun(b, 1)];
  }

  /** A running body can make all its accesses. */
  lemma {:induction false} BodyEnds(run: seq<State>, t: nat) returns (run': seq<State>, trace: seq<int>)
    requires IsGuardedRun(run) && t < |Last(run).tasks| == |Last(run).jobs|
    requires Last(run).tasks[t].status.Running? && !Last(run).tasks[t].returned
    requires |Last(run).tasks[t].trace| <= Last(run).jobs[t].steps
    ensures IsGuardedRun(run') && Last(run').jobs == Last(run).jobs && |trace| == Last(run).jobs[t].steps
    ensures Last(run').tasks == Last(run).tasks[t := Last(run).tasks[t].(trace := trace)]
    decreases Last(run).jobs[t].steps - |Last(run).tasks[t].trace|
  {
    trace := Last(run).tasks[t].trace;
    run' := run;
    if |trace| < Last(run).jobs[t].steps {
      var next := TakeGuarded(run, Act(t));
      run', trace := BodyEnds(next, t);
    } else {
      assert Last(run).tasks == Last(run).tasks[t := Last(run).tasks[t].(trace := trace)];
    }
  }

  /** The scan of the third task finds nothing in the first one. */
  lemma ThirdPassesFirst(run: seq<State>) returns (run': seq<State>)
    requires IsGuardedRun(run) && |Last(run).tasks| == |Last(run).jobs| == 3 && Last(run).tasks[0].status.Running?
    requires var x := Last(run).tasks[2];
             x.fill.Visit? && x.at == 0 && x.ancestor == NULL && !x.scape && Scan(Last(run).jobs[0].args, x.argv).None?
    ensures IsGuardedRun(run') && Last(run').jobs == Last(run).jobs
    ensures Last(run').tasks == Last(run).tasks[2 := Last(run).tasks[2].(at := NULL)]
  {
    var x := Last(run).tasks[2];
    run' := TakeGuarded(run, Read(2));
    assert Last(run').tasks == Last(run).tasks[2 := x.(fill := Examine)];
    run' := TakeGuarded(run', Match(2));
    assert Last(run').tasks == Last(run).tasks[2 := x.(fill := Test)];
    run' := TakeGuarded(run', TestFill(2));
    assert Last(run').tasks == Last(run).tasks[2 := x.(at := NULL)];
  }

  lemma ThirdStarts(run: seq<State>) returns (run': seq<State>)
    requires IsGuardedRun(run) && |Last(run).tasks| == |Last(run).jobs| == 3
    requires Last(run).tasks[2].fill.Visit? && Last(run).tasks[2].at == NULL && Last(run).tasks[2].ndeps == 0
    ensures IsGuardedRun(run') && Last(run').jobs == Last(run).jobs && |Last(run').tasks| == 3
    ensures Last(run').tasks[0] == Last(run).tasks[0] && Last(run').tasks[2].status.Running?
  {
    var x := Last(run).tasks[2];
    run' := TakeGuarded(run, Decide(2));
    assert Last(run').tasks == Last(run).tasks[2 := x.(fill := Exit(true))];
    run' := TakeGuarded(run', Leave(2));
    assert Last(run').tasks == Last(run).tasks[2 := Post(x.(fill := Left))];
    run' := TakeGuarded(run', Start(2));
  }

  lemma ThirdIsPushed(run: seq<State>, w: Job) returns (run': seq<State>)
    requires IsGuardedRun(run) && |Last(run).tasks| == |Last(run).jobs| == 2 && RootJob(w)
    ensures IsGuardedRun(run') && Last(run').jobs == Last(run).jobs + [w]
    ensures Last(run').tasks == Last(run).tasks + [NewTask(w, 1)]
  {
    run' := TakeGuarded(run, Push(w));
  }

  lemma ThirdPassesSecond(a: Job, b: Job, w: Job) returns (run: seq<State>)
    requires Triple(a, b, w) && Scan(b.args, w.args).None?
    ensures IsGuardedRun(run) && Last(run).jobs == [a, b, w]
    ensures Last(run).tasks == [First(a, b), NewTask(b, 0), NewTask(w, 1).(at := 0, pending := true)]
  {
    run := SecondIsPushed(a, b, w);
    run := ThirdIsPushed(run, w);
    var f, c, x := First(a, b), NewTask(b, 0), NewTask(w, 1);
    assert Last(run).tasks == [f, c, x];
    run := TakeGuarded(run, Read(2));
    assert Last(run).tasks == [f, c, x.(fill := Examine)];
    run := TakeGuarded(run, Match(2));
    assert Last(run).tasks == [f, c, x.(fill := Test)];
    run := TakeGuarded(run, TestFill(2));
    assert Last(run).tasks == [f, c, x.(at := 0, pending := true)];
  }

  /** The scan of the third task finds nothing, while the second one is still being inserted. */
  lemma ThirdPassesBoth(a: Job, b: Job, w: Job) returns (run: seq<State>)
    requires Triple(a, b, w) && Scan(b.args, w.args).None? && Scan(a.args, w.args).None?
    ensures IsGuardedRun(run) && Last(run).jobs == [a, b, w] && |Last(run).tasks| == 3
    ensures Last(run).tasks[0] == First(a, b) && Last(run).tasks[2].status.Running?
  {
    run := ThirdPassesSecond(a, b, w);
    run := ThirdPassesFirst(run);
    run := ThirdStarts(run);
  }

  /** The second task has ended before the third one looks at it. */
  lemma ThirdComesLate(a: Job, b: Job, w: Job) returns (run: seq<State>)
    requires Triple(a, b, w) && RunsBeside(a, b) && Scan(a.args, w.args).None?
    ensures IsGuardedRun(run) && Last(run).jobs == [a, b, w] && |Last(run).tasks| == 3
    ensures Last(run).tasks[0] == First(a, b) && Last(run).tasks[2].status.Running?
  {
    var trace;
    run := SecondBegins(a, b, w);
    run, trace := BodyEnds(run, 1);
    var f, c, x := First(a, b), Begun(b, 1).(trace := trace), NewTask(w, 1);
    assert Last(run).tasks == [f, c];
    var c' := c.(returned := true, nchildren := 0, status := Done, fin := Snap(1));
    run := TakeGuarded(run, Return(1));
    assert Last(run).tasks == [f, c'];
    run := ThirdIsPushed(run, w);
    assert Last(run).tasks == [f, c', x];
    run := TakeGuarded(run, Read(2));
    assert Last(run).tasks == [f, c', x.(at := 0)];
    run := ThirdPassesFirst(run);
    run := ThirdStarts(run);
  }

  /** The third task once it has linked itself to the second and has found nothing in the first. */
  ghost function LinkedThird(b: Job, w: Job): Task {
    NewTask(w, 1).(at := NULL, argv := Past(b, w), ndeps := 1)
  }

  lemma ThirdMeetsSecond(a: Job, b: Job, w: Job) returns (run: seq<State>)
    requires Triple(a, b, w) && RunsBeside(a, b) && Scan(b.args, w.args).Some?
    ensures IsGuardedRun(run) && Last(run).jobs == [a, b, w]
    ensures var hit := Scan(b.args, w.args).value;
            Last(run).tasks == [First(a, b), Begun(b, 1), NewTask(w, 1).(fill := Linking(hit.0, hit.1), ndeps := 1)]
  {
    run := SecondBegins(a, b, w);
    run := ThirdIsPushed(run, w);
    var f, c, x := First(a, b), Begun(b, 1), NewTask(w, 1);
    assert Last(run).tasks == [f, c, x];
    run := TakeGuarded(run, Read(2));
    assert Last(run).tasks == [f, c, x.(fill := Examine)];
    run := TakeGuarded(run, Match(2));
  }

  lemma ThirdLinks(a: Job, b: Job, w: Job) returns (run: seq<State>)
    requires Triple(a, b, w) && RunsBeside(a, b) && Scan(b.args, w.args).Some?
    ensures IsGuardedRun(run) && Last(run).jobs == [a, b, w]
    ensures Last(run).tasks == [First(a, b), Begun(b, 1).(deps := [2]), LinkedThird(b, w).(at := 1, fill := Test)]
  {
    run := ThirdMeetsSecond(a, b, w);
    PastIsPruned(b, w);
    assert Begun(b, 1).deps + [2] == [2];
    run := TakeGuarded(run, Link(2));
  }

  lemma ThirdGoesOn(a: Job, b: Job, w: Job) returns (run: seq<State>)
    requires Triple(a, b, w) && RunsBeside(a, b) && Scan(b.args, w.args).Some? && Scan(a.args, Past(b, w)).None?
    ensures IsGuardedRun(run) && Last(run).jobs == [a, b, w]
    ensures Last(run).tasks == [First(a, b), Begun(b, 1).(deps := [2]), LinkedThird(b, w)]
  {
    run := ThirdLinks(a, b, w);
    run := TakeGuarded(run, TestFill(2));
    assert Last(run).tasks == [First(a, b), Begun(b, 1).(deps := [2]), LinkedThird(b, w).(at := 0)];
    run := ThirdPassesFirst(run);
  }

  lemma ThirdWaits(a: Job, b: Job, w: Job) returns (run: seq<State>)
    requires Triple(a, b, w) && RunsBeside(a, b) && Scan(b.args, w.args).Some? && Scan(a.args, Past(b, w)).None?
    ensures IsGuardedRun(run) && Last(run).jobs == [a, b, w]
    ensures Last(run).tasks ==
            [First(a, b), Begun(b, 1).(deps := [2]), LinkedThird(b, w).(fill := Left, status := Waiting)]
  {
    run := ThirdGoesOn(a, b, w);
    run := TakeGuarded(run, Decide(2));
    assert Last(run).tasks == [First(a, b), Begun(b, 1).(deps := [2]), LinkedThird(b, w).(fill := Exit(false))];
    run := TakeGuarded(run, Leave(2));
  }

  lemma SecondEnds(a: Job, b: Job, w: Job) returns (run: seq<State>, c: Task)
    requires Triple(a, b, w) && RunsBeside(a, b) && Scan(b.args, w.args).Some? && Scan(a.args, Past(b, w)).None?
    ensures IsGuardedRun(run) && Last(run).jobs == [a, b, w]
    ensures Last(run).tasks == [First(a, b), c, LinkedThird(b, w).(fill := Left, status := Waiting)]
    ensures c.fin == Snap(1) && c.deps == [2]
  {
    var trace;
    run := ThirdWaits(a, b, w);
    run, trace := BodyEnds(run, 1);
    var x := LinkedThird(b, w).(fill := Left, status := Waiting);
    c := Begun(b, 1).(deps := [2], trace := trace);
    assert Last(run).tasks == [First(a, b), c, x];
    run := TakeGuarded(run, Return(1));
    c := c.(returned := true, nchildren := 0, status := Done, fin := Snap(1));
    assert Last(run).tasks == [First(a, b), c, x];
  }

  lemma SecondDrains(a: Job, b: Job, w: Job) returns (run: seq<State>, c: Task)
    requires Triple(a, b, w) && RunsBeside(a, b) && Scan(b.args, w.args).Some? && Scan(a.args, Past(b, w)).None?
    ensures IsGuardedRun(run) && Last(run).jobs == [a, b, w]
    ensures Last(run).tasks == [First(a, b), c, LinkedThird(b, w).(fill := Left, status := Waiting)]
    ensures c.fin == Drain(1, 2, 0) && c.deps == [2]
  {
    run, c := SecondEnds(a, b, w);
    var f, x := First(a, b), LinkedThird(b, w).(fill := Left, status := Waiting);
    run := TakeGuarded(run, Snapshot(1));
    assert Last(run).tasks == [f, c.(fin := Walk(1, 2, 2)), x];
    run := TakeGuarded(run, WalkOn(1));
    c := c.(fin := Drain(1, 2, 0));
    assert Last(run).tasks == [f, c, x];
  }

  /** The third task has linked itself to the second, which ends and releases it. */
  lemma ThirdIsReleased(a: Job, b: Job, w: Job) returns (run: seq<State>)
    requires Triple(a, b, w) && RunsBeside(a, b) && Scan(b.args, w.args).Some? && Scan(a.args, Past(b, w)).None?
    ensures IsGuardedRun(run) && Last(run).jobs == [a, b, w] && |Last(run).tasks| == 3
    ensures Last(run).tasks[0] == First(a, b) && Last(run).tasks[2].status.Running?
  {
    var c;
    run, c := SecondDrains(a, b, w);
    run := TakeGuarded(run, Release(1));
    assert Last(run).tasks[0] == First(a, b) && Last(run).tasks[2].status.Ready?;
    run := TakeGuarded(run, Start(2));
  }

  /** A run in which the third task starts while the body of the first one runs. */
  lemma ThirdRunsToo(a: Job, b: Job, w: Job) returns (run: seq<State>)
    requires Triple(a, b, w) && Passes(a, b, w)
    ensures IsGuardedRun(run) && ThirdRunning(run, a, b, w) && !Last(run).tasks[0].returned
  {
    if Scan(a.args, w.args).Some? {
      run := ThirdIsReleased(a, b, w);
    } else if RunsBeside(a, b) {
      run := ThirdComesLate(a, b, w);
    } else {
      run := ThirdPassesBoth(a, b, w);
    }
    GuardedIsRun(run);
  }

  /** Of three tasks, the second of which may be a child of the first, the third can run together with the first
      exactly when its scan can pass the first one by, directly or behind the second one. */
  lemma ThirdRunsWithFirstExactly(a: Job, b: Job, w: Job)
    requires Triple(a, b, w)
    ensures (exists run :: ThirdRunning(run, a, b, w)) <==> Passes(a, b, w)
  {
    if Passes(a, b, w) {
      var run := ThirdRunsToo(a, b, w);
    } else {
      forall run ensures !ThirdRunning(run, a, b, w) {
        ThirdMustWait(run, a, b, w);
      }
    }
  }

  // ----- two programs in which it does not wait although it should

  /** A task starts although an older one with the same argument still runs: the argument was dropped for the sake of
      a child of the older one that has ended since. */
  lemma NestedConflictRuns(a: Job, b: Job, w: Job) returns (run: seq<State>)
    requires a.args == b.args == w.args == [A] && a.father == w.father == NULL && b.father == 0
    ensures Conflicts(a.args, w.args)
    ensures IsGuardedRun(run) && ThirdRunning(run, a, b, w) && !Last(run).tasks[0].returned
  {
    assert Conflict(A, A) && A in a.args;
    assert ScanFrom([A], [A], 0, 0) == Some((0, 0)) && Prune([A], 0, [A], 0) == [];
    assert ScanFrom([A], [], 0, 0) == None;
    PastIsPruned(b, w);
    run := ThirdRunsToo(a, b, w);
  }

  function Cells(lo: int, hi: int, wr: bool): Region { Region(0, 8, wr, [(lo, hi)]) }

  /** A writer of the cells [5, 6] of an array starts although an older reader of them still runs: its argument was
      dropped for the sake of a task that writes [0, 1] and reads [0, 9]. */
  lemma MixedEntriesRunTogether(a: Job, b: Job, w: Job) returns (run: seq<State>)
    requires a.father == b.father == w.father == NULL && a.args == [Cells(5, 6, false)]
    requires b.args == [Cells(0, 1, true), Cells(0, 9, false)] && w.args == [Cells(5, 6, true)]
    ensures Conflicts(a.args, w.args)
    ensures IsGuardedRun(run) && ThirdRunning(run, a, b, w) && !Last(run).tasks[0].returned
  {
    MixedPasses(a, b, w);
    run := ThirdRunsToo(a, b, w);
  }

  lemma MixedIsPast(b: Job, w: Job)
    requires b.args == [Cells(0, 1, true), Cells(0, 9, false)] && w.args == [Cells(5, 6, true)]
    ensures Past(b, w) == []
  {
    MixedScans();
    PastIsPruned(b, w);
  }

  lemma MixedPasses(a: Job, b: Job, w: Job)
    requires a.father == b.father == w.father == NULL && a.args == [Cells(5, 6, false)]
    requires b.args == [Cells(0, 1, true), Cells(0, 9, false)] && w.args == [Cells(5, 6, true)]
    ensures Triple(a, b, w) && Passes(a, b, w) && Conflicts(a.args, w.args)
  {
    assert Scan(a.args, b.args).None? && Scan(a.args, []).None? by {
      MixedScans();
    }
    assert Conflicts(a.args, w.args) by {
      MixedScans();
      assert a.args[0] in a.args && w.args[0] in w.args;
    }
    MixedIsPast(b, w);
  }

  lemma MixedScans()
    ensures Scan([Cells(5, 6, false)], [Cells(0, 1, true), Cells(0, 9, false)]).None?
    ensures Scan([Cells(0, 1, true), Cells(0, 9, false)], [Cells(5, 6, true)]) == Some((0, 0))
    ensures Prune([Cells(0, 1, true), Cells(0, 9, false)], 0, [Cells(5, 6, true)], 0) == []
    ensures Scan([Cells(5, 6, false)], []).None? && Conflict(Cells(5, 6, false), Cells(5, 6, true))
  {
    var ps, ws := [Cells(5, 6, false)], [Cells(0, 1, true), Cells(0, 9, false)];
    assert !OverlapsIntervals(ws[0].dims[0].0, ws[0].dims[0].1, ps[0].dims[0].0, ps[0].dims[0].1);
    assert !ws[1].wr && !ps[0].wr;
    assert ScanFrom(ps, ws, 0, 2) == None;
    assert ScanFrom(ps, ws, 0, 1) == None;
    var w := Cells(5, 6, true);
    assert Clash(ws[1], w) && OverlapArray(w, ws, 1);
    assert RangesContain(ws[1].dims, w.dims) && ContainedInArray(w, ws, 1);
  }
}
