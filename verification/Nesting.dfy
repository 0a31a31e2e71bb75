/** What nesting costs, in programs whose spawns all meet the guard: a grandchild the destructor does not wait for,
    and a scan that ends before it has met a task in conflict. */
module Nesting {
  import opened Regions
  import opened Protocol
  import opened Shelter
  import opened Runs
  import opened Scenarios
  import opened Ordering
  import opened Containment
  import opened Observer

  /** A first task runs and spawns a second one with the same arguments, which runs too. */
  lemma ChildRuns(args: seq<Region>) returns (run: seq<State>)
    requires Arguments(args)
    ensures IsGuardedRun(run)
    ensures Last(run) == State([Taking(args, NULL), Taking(args, 0)],
                               [Begun(Taking(args, NULL), 2), Begun(Taking(args, 0), 1)], map[])
  {
    run := FirstBegins(Taking(args, NULL));
    var f, c := Begun(Taking(args, NULL), 2), NewTask(Taking(args, 0), 0);
    run := TakeGuarded(run, Push(Taking(args, 0)));
    assert Last(run).tasks == [f, c];
    run := TakeGuarded(run, Read(1));
    assert Last(run).tasks == [f, c.(at := NULL, ancestor := NULL)];
    run := TakeGuarded(run, Decide(1));
    assert Last(run).tasks == [f, c.(at := NULL, ancestor := NULL, fill := Exit(true))];
    run := TakeGuarded(run, Leave(1));
    assert Last(run).tasks == [f, Begun(Taking(args, 0), 1).(status := Ready)];
    run := TakeGuarded(run, Start(1));
    assert Last(run).tasks == [f, Begun(Taking(args, 0), 1)];
  }

  // ----- a grandchild outside the scope

  /** The second task spawns a third one, whose insertion ends at its father. */
  lemma GrandchildIsReady() returns (run: seq<State>)
    ensures IsGuardedRun(run)
    ensures Last(run).jobs == [Taking([], NULL), Taking([], 0), Taking([], 1)]
    ensures |Last(run).tasks| == 3 && Last(run).tasks[1].status.Running? && Last(run).tasks[2].status.Ready?
  {
    run := ChildRuns([]);
    var f, c, g := Begun(Taking([], NULL), 2), Begun(Taking([], 0), 2), NewTask(Taking([], 1), 1);
    NobodyFills(Last(run), 1);
    run := TakeGuarded(run, Push(Taking([], 1)));
    assert Last(run).tasks == [f, c, g];
    run := TakeGuarded(run, Read(2));
    assert Last(run).tasks == [f, c, g.(ancestor := 0, scape := true)];
    run := TakeGuarded(run, Decide(2));
    assert Last(run).tasks == [f, c, g.(ancestor := 0, scape := true, fill := Exit(true))];
    run := TakeGuarded(run, Leave(2));
    assert Last(run).tasks[2].status.Ready? && Last(run).tasks[1] == c;
  }

  /** A scope opened in the first task after it has spawned the second: the destructor ends while the third one,
      which the second has spawned since, has not even started. */
  lemma GrandchildIsNotAwaited() returns (run: seq<State>, ms: seq<Moment>)
    ensures Observation(run, ms, Scope(0, 1)) && ms[|ms| - 1].w.Exited?
    ensures |ms[|ms| - 1].s.tasks| == |ms[|ms| - 1].s.jobs| == 3
    ensures Descendant(ms[|ms| - 1].s.jobs, 2, 0) && ms[|ms| - 1].s.tasks[2].status.Ready?
  {
    run := GrandchildIsReady();
    GuardedRunsAreSafe(run);
    ms := ObserverCanExit(run, Scope(0, 1));
  }

  // ----- a scan that ends too soon

  function Jobs(): seq<Job> { [Taking([A], NULL), Taking([A], 0), Taking([], 0), Taking([A], 2)] }

  lemma SecondChildIsPushed() returns (run: seq<State>)
    ensures IsGuardedRun(run) && Last(run).jobs == Jobs()[..3]
    ensures Last(run).tasks == [Begun(Taking([A], NULL), 3), Begun(Taking([A], 0), 1), NewTask(Taking([], 0), 1)]
  {
    run := ChildRuns([A]);
    NobodyFills(Last(run), 0);
    run := TakeGuarded(run, Push(Taking([], 0)));
  }

  /** A second child, without arguments, that runs beside the first. */
  lemma SecondChildIsInserted() returns (run: seq<State>)
    ensures IsGuardedRun(run) && Last(run).jobs == Jobs()[..3]
    ensures Last(run).tasks == [Begun(Taking([A], NULL), 3), Begun(Taking([A], 0), 1),
                                NewTask(Taking([], 0), 1).(at := 0)]
  {
    run := SecondChildIsPushed();
    var f, c, d := Begun(Taking([A], NULL), 3), Begun(Taking([A], 0), 1), NewTask(Taking([], 0), 1);
    run := TakeGuarded(run, Read(2));
    assert Last(run).tasks == [f, c, d.(fill := Examine)];
    run := TakeGuarded(run, Match(2));
    assert Last(run).tasks == [f, c, d.(fill := Test)];
    run := TakeGuarded(run, TestFill(2));
    assert Last(run).tasks == [f, c, d.(at := 0)];
  }

  lemma SecondChildRuns() returns (run: seq<State>)
    ensures IsGuardedRun(run) && Last(run).jobs == Jobs()[..3]
    ensures Last(run).tasks == [Begun(Taking([A], NULL), 3), Begun(Taking([A], 0), 1),
                                Begun(Taking([], 0), 1)]
  {
    run := SecondChildIsInserted();
    var f, c, d := Begun(Taking([A], NULL), 3), Begun(Taking([A], 0), 1), Begun(Taking([], 0), 1);
    run := TakeGuarded(run, Read(2));
    assert Last(run).tasks == [f, c, NewTask(Taking([], 0), 1).(at := NULL, ancestor := NULL)];
    run := TakeGuarded(run, Decide(2));
    assert Last(run).tasks == [f, c, NewTask(Taking([], 0), 1).(at := NULL, ancestor := NULL, fill := Exit(true))];
    run := TakeGuarded(run, Leave(2));
    assert Last(run).tasks == [f, c, d.(status := Ready)];
    run := TakeGuarded(run, Start(2));
    assert Last(run).tasks == [f, c, d];
  }

  lemma GrandchildEscapes() returns (run: seq<State>)
    ensures IsGuardedRun(run) && Last(run).jobs == Jobs() && |Last(run).tasks| == 4
    ensures Last(run).tasks[1].status.Running?
    ensures Last(run).tasks[3] == NewTask(Taking([A], 2), 2).(ancestor := 0, scape := true)
  {
    run := SecondChildRuns();
    NobodyFills(Last(run), 2);
    run := TakeGuarded(run, Push(Taking([A], 2)));
    assert Last(run).tasks[1].status.Running? && Last(run).tasks[3] == NewTask(Taking([A], 2), 2);
    assert ContainedFrom([A], [A], 1, 0) && ContainedFrom([A], [A], 0, 0);
    assert Last(run).jobs[2].father == 0 && Last(run).jobs[3].args == Last(run).jobs[0].args == [A];
    run := TakeGuarded(run, Read(3));
  }

  /** The second child spawns a task with an argument of its father but not its own: the scan of that task ends at
      the child, since the father's arguments contain it, and the task runs together with the first child. */
  lemma EscapeMissesConflict() returns (run: seq<State>)
    ensures IsGuardedRun(run) && Last(run).jobs == Jobs() && Conflicts(Jobs()[1].args, Jobs()[3].args)
    ensures Childless(Jobs(), 1) && !Inherits(Jobs(), 1, 3)
    ensures |Last(run).tasks| == 4 && Last(run).tasks[1].status.Running? && Last(run).tasks[3].status.Running?
  {
    run := GrandchildEscapes();
    run := TakeGuarded(run, Decide(3));
    run := TakeGuarded(run, Leave(3));
    run := TakeGuarded(run, Start(3));
    assert Conflict(A, A) && A in Jobs()[1].args && A in Jobs()[3].args;
  }
}
