/** Two tasks from outside and a child of the first: exactly when such a program can get stuck. */
module Circles {
  import opened Regions
  import opened ArgScan
  import opened Protocol
  import opened Invariants
  import opened Safety
  import opened Shelter
  import opened Ancestry
  import opened Runs
  import opened Scenarios
  import opened Pairs
  import opened Progress
  import opened Deadlock
  import opened Triples

  predicate Circle(a: Job, w: Job, c: Job) {
    RootJob(a) && RootJob(w) && c.father == 0 && Arguments(c.args)
  }

  ghost predicate StuckRun(run: seq<State>, a: Job, w: Job, c: Job) {
    && IsGuardedRun(run) && Last(run).jobs == [a, w, c]
    && !CanStep(Last(run)) && NotGone(Last(run)) != {}
  }

  // ----- what such a run needs

  ghost predicate Halted(s: State) { Inv(s) && Tidy(s) && Fresh(s) && !CanStep(s) }

  /** The child waits for the second task only: its scan passes its father by. */
  lemma ChildWaits(s: State, a: Job, w: Job, c: Job)
    requires Halted(s) && s.jobs == [a, w, c] && Circle(a, w, c) && 2 in NotGone(s)
    ensures 1 in NotGone(s) && Scan(w.args, c.args).Some?
  {
    StuckTaskWaits(s, 2);
    InvIsFamily(s);
    if !s.tasks[2].status.Waiting? {
      var u := ReturnedHasChild(s, 2);
    }
    var p := WaitingHasEdge(s, 2);
    assert JoinsAt(s, p) && NextEdgeAt(s, 2);
  }

  lemma SecondWaits(s: State, a: Job, w: Job, c: Job)
    requires Halted(s) && s.jobs == [a, w, c] && Circle(a, w, c) && 1 in NotGone(s)
    ensures 0 in NotGone(s) && Scan(a.args, w.args).Some?
  {
    StuckTaskWaits(s, 1);
    InvIsFamily(s);
    if !s.tasks[1].status.Waiting? {
      var u := ReturnedHasChild(s, 1);
    }
    var p := WaitingHasEdge(s, 1);
    assert NextEdgeAt(s, 1);
  }

  lemma FatherWaits(s: State, a: Job, w: Job, c: Job)
    requires Halted(s) && s.jobs == [a, w, c] && Circle(a, w, c) && 0 in NotGone(s)
    ensures 2 in NotGone(s)
  {
    StuckTaskWaits(s, 0);
    InvIsFamily(s);
    if s.tasks[0].status.Waiting? {
      var p := WaitingHasEdge(s, 0);
    }
    var u := ReturnedHasChild(s, 0);
  }

  lemma StuckNeedsBoth(run: seq<State>, a: Job, w: Job, c: Job)
    requires Circle(a, w, c) && StuckRun(run, a, w, c)
    ensures Scan(a.args, w.args).Some? && Scan(w.args, c.args).Some?
  {
    var s := Last(run);
    GuardedRunsAreSafe(run);
    SafeRunIsTidy(run);
    SafeRunIsFresh(run);
    var t :| t in NotGone(s);
    if 0 in NotGone(s) {
      FatherWaits(s, a, w, c);
    }
    if 2 in NotGone(s) {
      ChildWaits(s, a, w, c);
    }
    SecondWaits(s, a, w, c);
    FatherWaits(s, a, w, c);
    ChildWaits(s, a, w, c);
  }

  // ----- a run that gets stuck

  /** The second task waits for the first. */
  ghost function Waiter(a: Job, w: Job): Task {
    NewTask(w, 0).(at := NULL, fill := Left, argv := Past(a, w), ndeps := 1, status := Waiting)
  }

  lemma SecondLinks(a: Job, w: Job, c: Job) returns (run: seq<State>)
    requires Circle(a, w, c) && Scan(a.args, w.args).Some?
    ensures IsGuardedRun(run) && Last(run).jobs == [a, w]
    ensures Last(run).tasks == [Begun(a, 1).(deps := [1]), Waiter(a, w).(at := 0, fill := Test, status := Filling)]
  {
    var hit := Scan(a.args, w.args).value;
    run := FirstBegins(a);
    var f, x := Begun(a, 1), NewTask(w, 0);
    run := TakeGuarded(run, Push(w));
    assert Last(run).tasks == [f, x];
    run := TakeGuarded(run, Read(1));
    assert Last(run).tasks == [f, x.(fill := Examine)];
    run := TakeGuarded(run, Match(1));
    assert Last(run).tasks == [f, x.(fill := Linking(hit.0, hit.1), ndeps := 1)];
    assert f.deps + [1] == [1];
    PastIsPruned(a, w);
    run := TakeGuarded(run, Link(1));
  }

  lemma SecondIsInserted(a: Job, w: Job, c: Job) returns (run: seq<State>)
    requires Circle(a, w, c) && Scan(a.args, w.args).Some?
    ensures IsGuardedRun(run) && Last(run).jobs == [a, w]
    ensures Last(run).tasks == [Begun(a, 1).(deps := [1]), Waiter(a, w)]
  {
    run := SecondLinks(a, w, c);
    var f, x := Begun(a, 1).(deps := [1]), Waiter(a, w).(status := Filling);
    run := TakeGuarded(run, TestFill(1));
    assert Last(run).tasks == [f, x.(fill := Visit)];
    run := TakeGuarded(run, Decide(1));
    assert Last(run).tasks == [f, x.(fill := Exit(false))];
    run := TakeGuarded(run, Leave(1));
  }

  /** The child meets the second task. */
  lemma ChildLinks(a: Job, w: Job, c: Job) returns (run: seq<State>)
    requires Circle(a, w, c) && Scan(a.args, w.args).Some? && Scan(w.args, c.args).Some?
    ensures IsGuardedRun(run) && Last(run).jobs == [a, w, c]
    ensures Last(run).tasks == [Begun(a, 2).(deps := [1]), Waiter(a, w).(deps := [2]),
                                NewTask(c, 1).(argv := Past(w, c), ndeps := 1, fill := Test)]
  {
    var hit := Scan(w.args, c.args).value;
    run := SecondIsInserted(a, w, c);
    var f, x, d := Begun(a, 2).(deps := [1]), Waiter(a, w), NewTask(c, 1);
    NobodyFills(Last(run), 0);
    run := TakeGuarded(run, Push(c));
    assert Last(run).tasks == [f, x, d];
    run := TakeGuarded(run, Read(2));
    assert Last(run).tasks == [f, x, d.(fill := Examine)];
    run := TakeGuarded(run, Match(2));
    assert Last(run).tasks == [f, x, d.(fill := Linking(hit.0, hit.1), ndeps := 1)];
    assert x.deps + [2] == [2];
    PastIsPruned(w, c);
    run := TakeGuarded(run, Link(2));
  }

  ghost function WaitingChild(w: Job, c: Job): Task {
    NewTask(c, 1).(at := NULL, ancestor := NULL, argv := Past(w, c), ndeps := 1, fill := Left, status := Waiting)
  }

  lemma ChildIsInserted(a: Job, w: Job, c: Job) returns (run: seq<State>)
    requires Circle(a, w, c) && Scan(a.args, w.args).Some? && Scan(w.args, c.args).Some?
    ensures IsGuardedRun(run) && Last(run).jobs == [a, w, c]
    ensures Last(run).tasks == [Begun(a, 2).(deps := [1]), Waiter(a, w).(deps := [2]), WaitingChild(w, c)]
  {
    run := ChildLinks(a, w, c);
    var f, x, d := Begun(a, 2).(deps := [1]), Waiter(a, w).(deps := [2]), WaitingChild(w, c).(status := Filling);
    run := TakeGuarded(run, TestFill(2));
    assert Last(run).tasks == [f, x, d.(at := 0, ancestor := 0, fill := Visit)];
    run := TakeGuarded(run, Read(2));
    assert Last(run).tasks == [f, x, d.(fill := Visit)];
    run := TakeGuarded(run, Decide(2));
    assert Last(run).tasks == [f, x, d.(fill := Exit(false))];
    run := TakeGuarded(run, Leave(2));
  }

  /** The first task waits for its child, the child for the second task, and that for the first. */
  lemma AllWait(a: Job, w: Job, c: Job) returns (run: seq<State>)
    requires Circle(a, w, c) && Scan(a.args, w.args).Some? && Scan(w.args, c.args).Some?
    ensures StuckRun(run, a, w, c)
  {
    var trace;
    run := ChildIsInserted(a, w, c);
    run, trace := BodyEnds(run, 0);
    var f, x, d := Begun(a, 2).(deps := [1], trace := trace), Waiter(a, w).(deps := [2]), WaitingChild(w, c);
    assert Last(run).tasks == [f, x, d];
    run := TakeGuarded(run, Return(0));
    assert Last(run).tasks == [f.(returned := true, nchildren := 1), x, d];
    assert 0 in NotGone(Last(run));
  }

  /** The program can get stuck exactly when the scans of the second task and of the child both find a conflict. */
  lemma StuckExactly(a: Job, w: Job, c: Job)
    requires Circle(a, w, c)
    ensures (exists run :: StuckRun(run, a, w, c)) <==> Scan(a.args, w.args).Some? && Scan(w.args, c.args).Some?
  {
    if Scan(a.args, w.args).Some? && Scan(w.args, c.args).Some? {
      var run := AllWait(a, w, c);
    }
    forall run | StuckRun(run, a, w, c) ensures Scan(a.args, w.args).Some? && Scan(w.args, c.args).Some? {
      StuckNeedsBoth(run, a, w, c);
    }
  }

  /** A knot need not bind: when the scan misses the conflict between the first two tasks, no run gets stuck. */
  lemma KnotWithoutDeadlock(c: Job)
    requires c.father == 0 && c.args == [Region(35, 1, true, [])]
    ensures Knot([Reader(), Writer(), c], {0, 1, 2})
    ensures forall run :: !StuckRun(run, Reader(), Writer(), c)
  {
    var jobs := [Reader(), Writer(), c];
    WriterIsMissed();
    assert Conflict(Writer().args[1], c.args[0]);
    assert Joins(jobs, 1, 0) && Joins(jobs, 2, 1);
    assert HoldsUp(jobs, 2, 0) && HoldsUp(jobs, 0, 1) && HoldsUp(jobs, 1, 2);
    StuckExactly(Reader(), Writer(), c);
  }
}
