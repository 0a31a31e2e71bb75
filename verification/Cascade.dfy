/** The wait loop of a cascade stops at the task whose end started the cascade, also when it waits on behalf of
    an older ancestor. When that is enough, and a run in which it is not. */
module Cascade {
  import opened Regions
  import opened ArgScan
  import opened Protocol
  import opened Invariants
  import opened Finishing
  import opened Progress
  import opened Runs
  import opened Scenarios

  /** No task that relies on `c` is filling when `c` begins to drain. */
  ghost predicate DrainsUndisturbed(s: State, c: nat)
    requires c < |s.tasks|
  {
    forall t: nat | c < t < |s.tasks| && Relies(s, t, c) :: LeftFilling(s, t)
  }

  /** A walk that reaches its end leads to an undisturbed drain exactly when the part of the list that it does
      not look at, from `c` to the task that started the cascade, holds no filling task that relies on `c`. */
  lemma CascadeExact(s: State, c: nat)
    requires Core(s) && Enabled(s, WalkOn(c)) && s.tasks[c].fin.p == s.tasks[c].fin.upto
    ensures DrainsUndisturbed(Apply(s, WalkOn(c)), c) <==>
            forall t: nat | t < |s.tasks| :: SafeFrom(s, c, t)
  {
    var f := s.tasks[c].fin;
    var s' := Apply(s, WalkOn(c));
    assert TaskOk(s, c) && ListedAt(s, c);
    WalkTurn(s, c);
    forall t: nat | c < t < |s.tasks|
      ensures Relies(s', t, c) == Relies(s, t, c) && LeftFilling(s', t) == LeftFilling(s, t) {
    }
    if forall t: nat | t < |s.tasks| :: SafeFrom(s, c, t) {
      forall t: nat | c < t < |s.tasks| && Relies(s', t, c) ensures LeftFilling(s', t) {
        assert SafeFrom(s, c, t) && Awaited(s, t);
        assert HasReturned(s, f.upto) && TaskOk(s, f.upto);
        assert t > f.upto ==> LeftFilling(s, t as int);
      }
    }
  }

  // ----- a nested run that gets stuck

  /** Two writers of the same region spawned from outside, and a child of the first without arguments. */
  function Writer(): Job { Taking([A], NULL) }

  function Child(): Job { Taking([], 0) }

  /** Every spawn but the third one meets the guard. */
  ghost predicate OneUnguarded(run: seq<State>) {
    IsRun(run) && forall i: nat | i + 1 < |run| :: GuardedNext(run[i], run[i + 1]) || ThirdSpawn(run[i], run[i + 1])
  }

  predicate ThirdSpawn(s: State, s': State) { |s.jobs| == 2 < |s'.jobs| }

  lemma Take(run: seq<State>, step: Step) returns (run': seq<State>)
    requires OneUnguarded(run) && Enabled(Last(run), step)
    requires step.Push? ==> step.job.father == NULL || |Last(run).jobs| == 2
    ensures OneUnguarded(run') && run' == run + [Apply(Last(run), step)]
  {
    run' := Runs.Take(run, step);
    forall i: nat | i + 1 < |run'| ensures GuardedNext(run'[i], run'[i + 1]) || ThirdSpawn(run'[i], run'[i + 1]) {
      if i + 1 < |run| {
        assert GuardedNext(run[i], run[i + 1]) || ThirdSpawn(run[i], run[i + 1]);
      } else {
        assert run'[i] == Last(run);
      }
    }
  }

  function RunningWriter(): Task { Begun(Writer(), 1) }

  /** The second writer has seen the first one live. */
  function EngagedWriter(): Task { NewTask(Writer(), 0).(fill := Examine) }

  lemma FirstWriterRuns() returns (run: seq<State>)
    ensures OneUnguarded(run) && Last(run) == State([Writer()], [RunningWriter()], map[])
  {
    run := FirstBegins(Writer());
    GuardedIsRun(run);
  }

  lemma SecondWriterEngages() returns (run: seq<State>)
    ensures OneUnguarded(run) && Last(run) == State([Writer(), Writer()], [RunningWriter(), EngagedWriter()], map[])
  {
    run := FirstWriterRuns();
    run := Take(run, Push(Writer()));
    assert Last(run).tasks == [RunningWriter(), NewTask(Writer(), 0)];
    run := Take(run, Read(1));
    assert Last(run).tasks == [RunningWriter(), EngagedWriter()];
  }

  function Jobs(): seq<Job> { [Writer(), Writer(), Child()] }

  function Father(): Task { WithChild(RunningWriter()) }

  function ScannedChild(): Task {
    NewTask(Child(), 1).(at := NULL, ancestor := NULL, pending := true, fill := Exit(true))
  }

  lemma ChildMeetsWriter() returns (run: seq<State>)
    ensures OneUnguarded(run)
    ensures Last(run) == State(Jobs(), [Father(), EngagedWriter(),
                                        NewTask(Child(), 1).(at := 0, pending := true)], map[])
  {
    run := SecondWriterEngages();
    var c := NewTask(Child(), 1);
    run := Take(run, Push(Child()));
    assert Last(run).tasks == [Father(), EngagedWriter(), c];
    run := Take(run, Read(2));
    assert Last(run).tasks == [Father(), EngagedWriter(), c.(fill := Examine)];
    run := Take(run, Match(2));
    assert Last(run).tasks == [Father(), EngagedWriter(), c.(fill := Test)];
    run := Take(run, TestFill(2));
    assert Last(run).tasks == [Father(), EngagedWriter(), c.(at := 0, pending := true)];
  }

  lemma ChildScans() returns (run: seq<State>)
    ensures OneUnguarded(run) && Last(run) == State(Jobs(), [Father(), EngagedWriter(), ScannedChild()], map[])
  {
    run := ChildMeetsWriter();
    var c := NewTask(Child(), 1);
    run := Take(run, Read(2));
    assert Last(run).tasks == [Father(), EngagedWriter(), c.(at := NULL, ancestor := NULL, pending := true)];
    run := Take(run, Decide(2));
    assert Last(run).tasks == [Father(), EngagedWriter(), ScannedChild()];
  }

  function GoneChild(): Task {
    ScannedChild().(fill := Left, status := Deallocatable, posts := 1, returned := true, nchildren := 0, fin := Gone)
  }

  function EndedChild(): Task {
    ScannedChild().(fill := Left, status := Done, posts := 1, returned := true, nchildren := 0, fin := Snap(2))
  }

  function EndedFather(): Task { Father().(returned := true, nchildren := 1) }

  lemma BodiesEnd() returns (run: seq<State>)
    ensures OneUnguarded(run) && Last(run) == State(Jobs(), [EndedFather(), EngagedWriter(), EndedChild()], map[])
  {
    run := ChildScans();
    var c := ScannedChild();
    var w := EngagedWriter();
    run := Take(run, Leave(2));
    run := Take(run, Start(2));
    assert Last(run).tasks == [Father(), w, c.(fill := Left, status := Running, posts := 1)];
    run := Take(run, Return(0));
    assert Last(run).tasks == [EndedFather(), w, c.(fill := Left, status := Running, posts := 1)];
    run := Take(run, Return(2));
    assert Last(run).tasks == [EndedFather(), w, EndedChild()];
  }

  lemma ChildDrains() returns (run: seq<State>)
    ensures OneUnguarded(run)
    ensures Last(run) == State(Jobs(), [EndedFather(), EngagedWriter(), EndedChild().(fin := Drain(2, 2, 0))], map[])
  {
    run := BodiesEnd();
    var f, w, c := EndedFather(), EngagedWriter(), EndedChild();
    run := Take(run, Snapshot(2));
    assert Last(run).tasks == [f, w, c.(fin := Walk(2, 2, 2))];
    run := Take(run, WalkOn(2));
    assert Last(run).tasks == [f, w, c.(fin := Drain(2, 2, 0))];
  }

  lemma ChildEnds() returns (run: seq<State>)
    ensures OneUnguarded(run)
    ensures Last(run) == State(Jobs(), [EndedFather().(nchildren := 0, status := Done, fin := Snap(2)),
                                        EngagedWriter(), GoneChild()], map[])
  {
    run := ChildDrains();
    var f, w, c := EndedFather(), EngagedWriter(), EndedChild();
    run := Take(run, Free(2));
    assert Last(run).tasks == [f, w, c.(status := Deallocatable, fin := Signal(2))];
    run := Take(run, Notify(2));
    assert Last(run).tasks == [f.(nchildren := 0, status := Done, fin := Snap(2)), w, GoneChild()];
  }

  function GoneFather(): Task {
    Father().(returned := true, nchildren := 0, status := Deallocatable, fin := Gone)
  }

  /** The father begins to drain while the second writer is about to compare with it. */
  lemma FatherDrains() returns (run: seq<State>)
    ensures OneUnguarded(run)
    ensures Last(run) == State(Jobs(), [DrainingFather(), EngagedWriter(), GoneChild()], map[])
  {
    run := ChildEnds();
    run := Take(run, Snapshot(0));
    assert Last(run).tasks == [DrainingFather().(fin := Walk(2, 2, 2)), EngagedWriter(), GoneChild()];
    run := Take(run, WalkOn(0));
    assert Last(run).tasks == [DrainingFather(), EngagedWriter(), GoneChild()];
  }

  function DrainingFather(): Task { EndedFather().(nchildren := 0, status := Done, fin := Drain(2, 2, 0)) }

  /** The second writer has found the conflict and has yet to link itself. */
  function MatchedWriter(): Task { EngagedWriter().(fill := Linking(0, 0), ndeps := 1) }

  lemma WriterMatches() returns (run: seq<State>)
    ensures OneUnguarded(run) && Last(run) == State(Jobs(), [DrainingFather(), MatchedWriter(), GoneChild()], map[])
  {
    run := FatherDrains();
    assert Conflict(A, A) && ScanFrom([A], [A], 0, 0) == Some((0, 0));
    run := Take(run, Match(1));
    assert Last(run).tasks == [DrainingFather(), MatchedWriter(), GoneChild()];
  }

  /** The father frees its lists while the second writer is about to link itself. */
  lemma FatherFreesTooSoon() returns (run: seq<State>)
    ensures OneUnguarded(run) && Last(run) == State(Jobs(), [GoneFather(), MatchedWriter(), GoneChild()], map[])
  {
    run := WriterMatches();
    run := Take(run, Free(0));
    assert Last(run).tasks ==
           [DrainingFather().(status := Deallocatable, fin := Signal(2)), MatchedWriter(), GoneChild()];
    run := Take(run, Notify(0));
    assert Last(run).tasks == [GoneFather(), MatchedWriter(), GoneChild()];
  }

  function StuckWriter(): Task {
    NewTask(Writer(), 0).(at := NULL, fill := Left, argv := [], ndeps := 1, status := Waiting)
  }

  function LinkedFather(): Task { GoneFather().(deps := [1]) }

  lemma WriterLinksTooLate() returns (run: seq<State>)
    ensures OneUnguarded(run)
    ensures Last(run) == State(Jobs(), [LinkedFather(), EngagedWriter().(fill := Test, ndeps := 1, argv := []),
                                        GoneChild()], map[])
  {
    run := FatherFreesTooSoon();
    assert Prune([A], 0, [A], 0) == [] && GoneFather().deps + [1] == [1];
    run := Take(run, Link(1));
    assert Last(run).tasks == [LinkedFather(), EngagedWriter().(fill := Test, ndeps := 1, argv := []), GoneChild()];
  }

  /** A nested program with two spawning threads whose second task waits for ever for a dependency that was lost. A
      single spawn fails the guard. */
  lemma CascadeLosesDependency() returns (run: seq<State>)
    ensures OneUnguarded(run)
    ensures |Last(run).tasks| == 3 && Last(run).tasks[1].status.Waiting? && !CanStep(Last(run))
  {
    run := WriterLinksTooLate();
    var f, w := LinkedFather(), EngagedWriter().(ndeps := 1, argv := []);
    run := Take(run, TestFill(1));
    assert Last(run).tasks == [f, w.(fill := Visit, at := NULL), GoneChild()];
    run := Take(run, Decide(1));
    assert Last(run).tasks == [f, w.(fill := Exit(false), at := NULL), GoneChild()];
    run := Take(run, Leave(1));
    assert Last(run).tasks == [f, StuckWriter(), GoneChild()];
  }

  // ----- a nested run that posts a task twice

  /** The second writer has linked itself to the draining father. */
  function LateWriter(): Task { NewTask(Writer(), 0).(fill := Test, ndeps := 1, argv := []) }

  lemma WriterLinksToDraining() returns (run: seq<State>)
    ensures OneUnguarded(run)
    ensures Last(run) == State(Jobs(), [DrainingFather().(deps := [1]), LateWriter(), GoneChild()], map[])
  {
    run := WriterMatches();
    assert Prune([A], 0, [A], 0) == [] && DrainingFather().deps + [1] == [1];
    run := Take(run, Link(1));
    assert Last(run).tasks == [DrainingFather().(deps := [1]), LateWriter(), GoneChild()];
  }

  function EarlyWriter(): Task { LateWriter().(ndeps := 0, status := Running, posts := 1) }

  /** The father releases the writer, which starts before its own insertion is over. */
  lemma WriterStartsTooSoon() returns (run: seq<State>)
    ensures OneUnguarded(run)
    ensures Last(run) ==
            State(Jobs(), [DrainingFather().(deps := [1], fin := Drain(2, 2, 1)), EarlyWriter(), GoneChild()], map[])
  {
    run := WriterLinksToDraining();
    var f := DrainingFather().(deps := [1], fin := Drain(2, 2, 1));
    run := Take(run, Release(0));
    assert Last(run).tasks == [f, EarlyWriter().(status := Ready), GoneChild()];
    run := Take(run, Start(1));
    assert Last(run).tasks == [f, EarlyWriter(), GoneChild()];
  }

  /** The insertion goes on, finds no dependencies left, and posts the running task again. A single spawn fails the
      guard. */
  lemma CascadePostsTwice() returns (run: seq<State>)
    ensures OneUnguarded(run) && |run| > 3
    ensures |run[|run| - 4].tasks| == |Last(run).tasks| == 3
    ensures run[|run| - 4].tasks[1].status.Running?
    ensures Last(run).tasks[1].status.Ready? && Last(run).tasks[1].posts == 2
  {
    var before := WriterStartsTooSoon();
    var f := DrainingFather().(deps := [1], fin := Drain(2, 2, 1));
    run := Take(before, TestFill(1));
    assert Last(run).tasks == [f, EarlyWriter().(fill := Visit, at := NULL), GoneChild()];
    run := Take(run, Decide(1));
    assert Last(run).tasks == [f, EarlyWriter().(fill := Exit(true), at := NULL), GoneChild()];
    run := Take(run, Leave(1));
    assert Last(run).tasks[1] == EarlyWriter().(fill := Left, at := NULL, status := Ready, posts := 2);
  }
}
