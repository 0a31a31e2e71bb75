/** What a conflict that the scan misses comes to: two tasks run together exactly when the scan finds nothing, and
    a program whose memory then differs from the sequential one. */
module Pairs {
  import opened Regions
  import opened ArgScan
  import opened Protocol
  import opened Invariants
  import opened Safety
  import opened Ancestry
  import opened Ordering
  import opened Serial
  import opened Runs
  import opened Guarantees
  import opened Scenarios

  predicate RootJob(job: Job) { job.father == NULL && Arguments(job.args) }

  // ----- what an edge between neighbours says

  /** Before it has linked itself, a task compares its whole list; what it is about to link to is what the scan
      found. */
  predicate FreshAt(s: State, t: nat)
    requires t < |s.tasks| == |s.jobs|
  {
    var x := s.tasks[t];
    && (x.at == t - 1 && (x.fill.Visit? || x.fill.Examine? || x.fill.Linking?) ==> x.argv == s.jobs[t].args)
    && (x.fill.Linking? && 0 <= x.at < |s.jobs| ==> Scan(s.jobs[x.at].args, x.argv) == Some((x.fill.k, x.fill.l)))
  }

  /** An edge to the task before is one that the scan of the whole lists has found. */
  predicate NextEdgeAt(s: State, t: nat)
    requires t < |s.tasks| == |s.jobs|
  {
    0 < t && t in s.tasks[t - 1].deps ==> Scan(s.jobs[t - 1].args, s.jobs[t].args).Some?
  }

  ghost predicate Fresh(s: State) {
    |s.tasks| == |s.jobs| && forall t: nat | t < |s.tasks| :: FreshAt(s, t) && NextEdgeAt(s, t)
  }

  lemma ScanKeepsFresh(s: State, step: Step)
    requires Inv(s) && Enabled(s, step) && !step.Push? && Inserts(step, step.t) && FreshAt(s, step.t)
    ensures step.t < |Apply(s, step).tasks| == |Apply(s, step).jobs| && FreshAt(Apply(s, step), step.t)
  {
    assert TaskOk(s, step.t);
  }

  lemma StepKeepsFreshAt(s: State, step: Step, t: nat)
    requires Inv(s) && Enabled(s, step) && t < |s.tasks| && FreshAt(s, t)
    ensures t < |Apply(s, step).tasks| == |Apply(s, step).jobs| && FreshAt(Apply(s, step), t)
  {
    JobsGrow(s, step);
    if Inserts(step, t) {
      ScanKeepsFresh(s, step);
    } else {
      ScanKept(s, step, t);
      assert TaskOk(s, t);
    }
  }

  lemma StepKeepsNextEdge(s: State, step: Step, t: nat)
    requires Inv(s) && Enabled(s, step) && t < |s.tasks| && FreshAt(s, t) && NextEdgeAt(s, t)
    ensures t < |Apply(s, step).tasks| == |Apply(s, step).jobs| && NextEdgeAt(Apply(s, step), t)
  {
    JobsGrow(s, step);
    if 0 < t {
      DepsKept(s, step, t - 1);
      if step.Link? && step.t == t {
        assert TaskOk(s, t);
      }
    }
  }

  lemma NoEdgeOfNew(s: State, step: Step)
    requires Inv(s) && Enabled(s, step) && step.Push?
    ensures |Apply(s, step).tasks| == |Apply(s, step).jobs| == |s.tasks| + 1
    ensures FreshAt(Apply(s, step), |s.tasks|) && NextEdgeAt(Apply(s, step), |s.tasks|)
  {
    if 0 < |s.tasks| {
      assert TaskOk(s, |s.tasks| - 1);
      DepsKept(s, step, |s.tasks| - 1);
    }
  }

  lemma StepKeepsFresh(s: State, step: Step)
    requires Inv(s) && Fresh(s) && Enabled(s, step)
    ensures Fresh(Apply(s, step))
  {
    JobsGrow(s, step);
    forall t: nat | t < |Apply(s, step).tasks| ensures FreshAt(Apply(s, step), t) && NextEdgeAt(Apply(s, step), t) {
      if t < |s.tasks| {
        StepKeepsFreshAt(s, step, t);
        StepKeepsNextEdge(s, step, t);
      } else {
        NoEdgeOfNew(s, step);
      }
    }
  }

  lemma {:induction false} SafeRunIsFresh(run: seq<State>)
    requires SafeRun(run)
    ensures Inv(Last(run)) && Fresh(Last(run))
    decreases |run|
  {
    SafeRunKeeps(run);
    if |run| > 1 {
      var s, step := LastStep(run);
      SafeRunIsFresh(run[..|run| - 1]);
      StepKeepsFresh(s, step);
    }
  }

  // ----- when the scan finds the conflict

  /** `t` follows a task that is not its father, and the scan finds a conflict between their lists. */
  predicate Follows(jobs: seq<Job>, t: nat) {
    0 < t < |jobs| && jobs[t].father != t - 1 && Scan(jobs[t - 1].args, jobs[t].args).Some?
  }

  /** The scan of `t` is about to compare with the task before. */
  predicate AtNext(s: State, t: nat)
    requires 0 < t < |s.tasks|
  {
    var x := s.tasks[t];
    x.at == t - 1 && (x.fill.Visit? || x.fill.Examine? || x.fill.Linking?) && !x.scape
  }

  /** `t` is held back by the task before, by the comparison to come or by an edge. */
  predicate HeldByNext(s: State, t: nat)
    requires 0 < t < |s.tasks|
  {
    AtNext(s, t) || Edge(s, t, t - 1)
  }

  predicate FollowerAt(s: State, t: nat)
    requires t < |s.tasks| == |s.jobs|
  {
    Follows(s.jobs, t) && s.tasks[t - 1].status.Live() ==> HeldByNext(s, t)
  }

  ghost predicate FollowersHeld(s: State) {
    |s.tasks| == |s.jobs| && forall t: nat | t < |s.tasks| :: FollowerAt(s, t)
  }

  lemma LookHolds(s: State, step: Step, t: nat)
    requires Enabled(s, step) && OfScan(step) && step.t == t && ScanOk(s, t) && FreshAt(s, t)
    requires Follows(s.jobs, t) && s.tasks[t - 1].status.Live() && AtNext(s, t)
    ensures t < |Apply(s, step).tasks| && AtNext(Apply(s, step), t)
  {
    match step
    case Read(_) =>
    case Match(_) =>
    case _ =>
  }

  lemma LiveKeepsEdge(s: State, step: Step, b: nat, p: nat)
    requires Inv(s) && Enabled(s, step) && p < |s.tasks| && s.tasks[p].status.Live() && Edge(s, b, p)
    ensures p < |Apply(s, step).tasks| && Edge(Apply(s, step), b, p)
  {
    assert StatusOk(s.tasks[p], s.jobs[p]) by {
      assert TaskOk(s, p);
    }
    EdgeKept(s, step, b, p);
  }

  lemma EdgeHolds(s: State, step: Step, t: nat)
    requires Inv(s) && Enabled(s, step) && 0 < t < |s.tasks| && s.tasks[t - 1].status.Live() && Edge(s, t, t - 1)
    ensures t < |Apply(s, step).tasks| && HeldByNext(Apply(s, step), t)
  {
    JobsGrow(s, step);
    LiveKeepsEdge(s, step, t, t - 1);
  }

  lemma LinkHolds(s: State, t: nat)
    requires Core(s) && Enabled(s, Link(t)) && 0 < t && AtNext(s, t)
    ensures HeldByNext(DoLink(s, t), t)
  {
    LinkLinks(s, t, t, t - 1);
  }

  lemma ScanHolds(s: State, step: Step, t: nat)
    requires Inv(s) && Fresh(s) && Enabled(s, step) && t < |s.tasks| && Inserts(step, t)
    requires Follows(s.jobs, t) && s.tasks[t - 1].status.Live() && AtNext(s, t)
    ensures t < |Apply(s, step).tasks| && HeldByNext(Apply(s, step), t)
  {
    if step.Link? {
      LinkHolds(s, t);
    } else {
      assert TaskOk(s, t) && FreshAt(s, t);
      LookHolds(s, step, t);
    }
  }

  lemma OthersHold(s: State, step: Step, t: nat)
    requires Enabled(s, step) && 0 < t < |s.tasks| && !Inserts(step, t) && AtNext(s, t)
    ensures t < |Apply(s, step).tasks| && HeldByNext(Apply(s, step), t)
  {
    ScanKept(s, step, t);
  }

  lemma StepKeepsFollower(s: State, step: Step, t: nat)
    requires Inv(s) && CascadeSafe(s) && Fresh(s) && Enabled(s, step) && t < |s.tasks| && FollowerAt(s, t)
    ensures t < |Apply(s, step).tasks| == |Apply(s, step).jobs| && FollowerAt(Apply(s, step), t)
  {
    JobsGrow(s, step);
    if Follows(s.jobs, t) {
      LiveBefore(s, step, t - 1);
      if s.tasks[t - 1].status.Live() {
        if !AtNext(s, t) {
          EdgeHolds(s, step, t);
        } else if Inserts(step, t) {
          ScanHolds(s, step, t);
        } else {
          OthersHold(s, step, t);
        }
      }
    }
  }

  lemma {:induction false} SafeRunHoldsFollowers(run: seq<State>)
    requires SafeRun(run)
    ensures Inv(Last(run)) && FollowersHeld(Last(run))
    decreases |run|
  {
    SafeRunKeeps(run);
    if |run| > 1 {
      var before := run[..|run| - 1];
      var s, step := LastStep(run);
      SafeRunHoldsFollowers(before);
      SafeRunIsFresh(before);
      JobsGrow(s, step);
      assert CascadeSafe(run[|run| - 2]);
      forall t: nat | t < |Last(run).tasks| ensures FollowerAt(Last(run), t) {
        if t < |s.tasks| {
          StepKeepsFollower(s, step, t);
        }
      }
    }
  }

  /** In any safe program: of two tasks that follow each other, of which the newer is no child of the older, the newer
      is not posted before the older has finished, if the scan finds a conflict between their lists. */
  lemma FollowerWaits(run: seq<State>, t: nat)
    requires SafeRun(run) && t < |Last(run).tasks| && Follows(Last(run).jobs, t)
    ensures Last(run).tasks[t].status.Posted() ==> !Last(run).tasks[t - 1].status.Live()
  {
    SafeRunHoldsFollowers(run);
    assert TaskOk(Last(run), t) && FollowerAt(Last(run), t);
    if Last(run).tasks[t].status.Posted() {
      NoEdgeOfPosted(Last(run), t, t - 1);
    }
  }

  // ----- when it does not

  lemma SecondPasses(a: Job, b: Job) returns (run: seq<State>)
    requires RootJob(a) && RootJob(b) && Scan(a.args, b.args).None?
    ensures IsRun(run) && run[0].mem == map[]
    ensures Last(run) == State([a, b], [Begun(a, 1), NewTask(b, 0).(at := NULL)], map[])
  {
    run := FirstBegins(a);
    GuardedIsRun(run);
    var f, x := Begun(a, 1), NewTask(b, 0);
    run := Take(run, Push(b));
    assert Last(run).tasks == [f, x];
    run := Take(run, Read(1));
    assert Last(run).tasks == [f, x.(fill := Examine)];
    run := Take(run, Match(1));
    assert Last(run).tasks == [f, x.(fill := Test)];
    run := Take(run, TestFill(1));
    assert Last(run).tasks == [f, x.(at := NULL)];
  }

  lemma BothStart(a: Job, b: Job) returns (run: seq<State>)
    requires RootJob(a) && RootJob(b) && Scan(a.args, b.args).None?
    ensures IsRun(run) && run[0].mem == map[]
    ensures Last(run) == State([a, b], [Begun(a, 1), Begun(b, 1)], map[])
  {
    run := SecondPasses(a, b);
    var f := Begun(a, 1);
    run := Take(run, Decide(1));
    assert Last(run).tasks == [f, NewTask(b, 0).(at := NULL, fill := Exit(true))];
    run := Take(run, Leave(1));
    assert Last(run).tasks == [f, Begun(b, 1).(status := Ready)];
    run := Take(run, Start(1));
    assert Last(run).tasks == [f, Begun(b, 1)];
  }

  ghost predicate RunningTogether(run: seq<State>, a: Job, b: Job) {
    && IsRun(run) && Last(run).jobs == [a, b] && |Last(run).tasks| == 2
    && Last(run).tasks[0].status.Running? && Last(run).tasks[1].status.Running?
  }

  /** Two tasks spawned from outside can run together exactly when the scan finds no conflict between their lists,
      whether or not there is one. */
  lemma RunTogetherExactly(a: Job, b: Job)
    requires RootJob(a) && RootJob(b)
    ensures (exists run :: RunningTogether(run, a, b)) <==> Scan(a.args, b.args).None?
  {
    if Scan(a.args, b.args).None? {
      var run := BothStart(a, b);
      assert RunningTogether(run, a, b);
    } else {
      forall run | RunningTogether(run, a, b) ensures false {
        assert FlatJobs(Last(run).jobs) && Follows(Last(run).jobs, 1);
        FlatRunsAreSafe(run);
        FollowerWaits(run, 1);
      }
    }
  }

  // ----- a missed conflict that changes memory

  /** Reads byte 35 under a read of [0, 100) and stores the value at byte 200. */
  function Copy(trace: seq<int>): Action {
    if |trace| == 0 then Load(Byte(35)) else Store(Byte(200), trace[0])
  }

  function Reader(): Job { Job([Region(0, 100, false, []), Region(200, 1, true, [])], NULL, 2, Copy) }

  function Set(trace: seq<int>): Action { Store(Byte(35), 7) }

  /** Writes byte 35 under a write of [30, 40), behind a read of [10, 20). */
  function Writer(): Job { Job([Region(10, 10, false, []), Region(30, 10, true, [])], NULL, 1, Set) }

  lemma WriterIsMissed()
    ensures RootJob(Reader()) && RootJob(Writer()) && Conflicts(Reader().args, Writer().args)
    ensures Scan(Reader().args, Writer().args).None?
  {
    var ps, ws := Reader().args, Writer().args;
    assert Conflict(ps[0], ws[1]);
    assert ScanFrom(ps, ws, 1, 2) == None;
    assert ScanFrom(ps, ws, 1, 1) == None;
    assert ScanFrom(ps, ws, 1, 0) == None;
  }

  lemma BodiesAreGood()
    ensures GoodBodies([Reader(), Writer()])
  {
    FlatSpawnersApart([Reader(), Writer()]);
    var ps, ws := Reader().args, Writer().args;
    assert Covers(ps[0], Byte(35)) && Covers(ps[1], Byte(200)) && Covers(ws[1], Byte(35));
    assert Touches(ps, Byte(35)) && Writes(ps, Byte(200)) && Writes(ws, Byte(35));
  }

  function After(job: Job, trace: seq<int>): Task { Begun(job, 1).(trace := trace) }

  lemma WriterActs() returns (run: seq<State>)
    ensures IsRun(run) && run[0].mem == map[] && Last(run).jobs == [Reader(), Writer()]
    ensures Last(run).tasks == [After(Reader(), []), After(Writer(), [0])]
    ensures Last(run).mem == map[Byte(35) := 7]
  {
    WriterIsMissed();
    run := BothStart(Reader(), Writer());
    var start: seq<int> := [];
    assert Writer().act(start) == Store(Byte(35), 7) && start + [0] == [0];
    run := Take(run, Act(1));
    assert Last(run).mem == map[Byte(35) := 7];
    assert Last(run).tasks == [After(Reader(), []), After(Writer(), [0])];
  }

  lemma WriterActsFirst() returns (run: seq<State>)
    ensures IsRun(run) && run[0].mem == map[] && Last(run).jobs == [Reader(), Writer()]
    ensures Last(run).tasks == [After(Reader(), [7, 0]), After(Writer(), [0])]
    ensures Last(run).mem == map[Byte(35) := 7, Byte(200) := 7]
  {
    run := WriterActs();
    var start: seq<int> := [];
    assert Reader().act(start) == Load(Byte(35)) && Reader().act([7]) == Store(Byte(200), 7);
    assert start + [7] == [7] && [7] + [0] == [7, 0];
    run := Take(run, Act(0));
    assert Last(run).tasks == [After(Reader(), [7]), After(Writer(), [0])];
    run := Take(run, Act(0));
    assert Last(run).tasks == [After(Reader(), [7, 0]), After(Writer(), [0])];
  }

  lemma SerialIsZero()
    ensures var m := SerialMemory([Reader(), Writer()], map[], 2); Byte(200) in m && m[Byte(200)] == 0
  {
    var jobs := [Reader(), Writer()];
    assert Writer().act([]) == Store(Byte(35), 7);
    assert Reader().act([]) == Load(Byte(35)) && Reader().act([0]) == Store(Byte(200), 0);
    var start: seq<int> := [];
    assert start + [0] == [0] && [0] + [0] == [0, 0];
    assert RunBody(Reader(), map[], 0) == (map[], []);
    assert RunBody(Reader(), map[], 1) == (map[], [0]);
    assert RunBody(Reader(), map[], 2) == (map[Byte(200) := 0], [0, 0]);
    assert SerialMemory(jobs, map[], 1) == map[Byte(200) := 0];
    assert RunBody(Writer(), map[Byte(200) := 0], 0) == (map[Byte(200) := 0], []);
    assert RunBody(Writer(), map[Byte(200) := 0], 1).0 == map[Byte(200) := 0, Byte(35) := 7];
  }

  /** A finished flat run whose bodies keep to their regions, and whose memory is not that of the sequential program. */
  lemma MissedConflictChangesMemory() returns (run: seq<State>)
    ensures IsRun(run) && FlatJobs(Last(run).jobs) && GoodBodies(Last(run).jobs)
    ensures |Last(run).tasks| == |Last(run).jobs| == 2
    ensures !Last(run).tasks[0].status.Live() && !Last(run).tasks[1].status.Live()
    ensures !AgreeAt(Last(run).mem, SerialMemory(Last(run).jobs, run[0].mem, 2), Byte(200))
  {
    run := WriterActsFirst();
    run := Take(run, Return(0));
    assert Last(run).tasks[1] == After(Writer(), [0]);
    run := Take(run, Return(1));
    BodiesAreGood();
    SerialIsZero();
  }
}
