/** Runs are bounded, and what keeps a single task from going on. */
module Progress {
  import opened Protocol
  import opened Invariants
  import opened Preservation
  import opened Linking
  import opened Finishing
  import opened Spawning
  import opened Safety
  import opened Runs
  import opened Sums

  // ----- bounded runs

  /** Steps the scan of `x` can still take, weighted so that an added edge is paid for. */
  function FillWork(x: Task): int {
    match x.fill
    case Left => 0
    case Exit(_) => 1
    case Visit => if x.scape then 2 else 8 * (x.at + 1) + 2
    case Examine => 8 * (x.at + 1) + 1
    case Linking(_, _) => 8 * (x.at + 1)
    case Test => 8 * (x.at + 1) - 2
  }

  /** Steps from leaving the scan to the end, with at most `n` tasks in the list. */
  function RestWork(x: Task, steps: nat, n: nat): int {
    match x.fin
    case Unfinished =>
      if !x.status.Running? then steps + n + 8
      else if x.returned then n + 6
      else steps - |x.trace| + n + 7
    case Snap(_) => n + 6
    case Walk(_, _, p) => p + 5
    case Drain(_, _, _) => 3
    case Signal(_) => 1
    case Gone => 0
  }

  function Work(x: Task, job: Job, n: nat): int {
    FillWork(x) + RestWork(x, job.steps, n) + |Undrained(x)|
  }

  function WorkOf(s: State, n: nat): nat -> int {
    (t: nat) => if t < |s.tasks| == |s.jobs| then Work(s.tasks[t], s.jobs[t], n) else 0
  }

  /** A bound on the steps, other than spawning, that can still be taken. */
  function TotalWork(s: State, n: nat): int { Sum(|s.tasks|, WorkOf(s, n)) }

  lemma WorkPut(s: State, n: nat, t: nat, x: Task)
    requires t < |s.tasks| == |s.jobs|
    ensures TotalWork(Put(s, t, x), n) == TotalWork(s, n) + Work(x, s.jobs[t], n) - Work(s.tasks[t], s.jobs[t], n)
  {
    SumChange(|s.tasks|, WorkOf(s, n), WorkOf(Put(s, t, x), n), t);
  }

  lemma WorkMemory(s: State, n: nat, mem: Memory)
    ensures TotalWork(s.(mem := mem), n) == TotalWork(s, n)
  {
    SumSame(|s.tasks|, WorkOf(s, n), WorkOf(s.(mem := mem), n));
  }

  /** The record of `t` alone changes, and less work is left on it. */
  lemma LessWork(s: State, n: nat, t: nat, x: Task)
    requires t < |s.tasks| == |s.jobs| && Work(x, s.jobs[t], n) < Work(s.tasks[t], s.jobs[t], n)
    ensures TotalWork(Put(s, t, x), n) < TotalWork(s, n)
  {
    WorkPut(s, n, t, x);
  }

  lemma LessFillWork(s: State, n: nat, t: nat, x: Task)
    requires t < |s.tasks| == |s.jobs| && x.status == s.tasks[t].status && x.fin == s.tasks[t].fin
    requires x.deps == s.tasks[t].deps && x.trace == s.tasks[t].trace && x.returned == s.tasks[t].returned
    requires FillWork(x) < FillWork(s.tasks[t])
    ensures TotalWork(Put(s, t, x), n) < TotalWork(s, n)
  {
    LessWork(s, n, t, x);
  }

  lemma ReadWork(s: State, n: nat, t: nat)
    requires InScan(s, t, Visit) && !s.tasks[t].scape
    ensures TotalWork(DoRead(s, t), n) < TotalWork(s, n)
  {
    var x := s.tasks[t];
    var x' := DoRead(s, t).tasks[t];
    assert (x'.fill == Visit && (x'.scape || x'.at == x.at - 1)) || (x'.fill == Examine && x'.at == x.at);
    LessFillWork(s, n, t, x');
  }

  lemma MatchWork(s: State, n: nat, t: nat)
    requires InScan(s, t, Examine)
    ensures TotalWork(DoMatch(s, t), n) < TotalWork(s, n)
  {
    LessFillWork(s, n, t, DoMatch(s, t).tasks[t]);
  }

  lemma TestWork(s: State, n: nat, t: nat)
    requires Core(s) && InScan(s, t, Test)
    ensures TotalWork(DoTest(s, t), n) < TotalWork(s, n)
  {
    assert TaskOk(s, t);
    LessFillWork(s, n, t, DoTest(s, t).tasks[t]);
  }

  lemma LeaveWork(s: State, n: nat, step: Step)
    requires Core(s) && Enabled(s, step) && (step.Decide? || step.Leave?)
    ensures TotalWork(Apply(s, step), n) < TotalWork(s, n)
  {
    assert TaskOk(s, step.t);
    LessWork(s, n, step.t, Apply(s, step).tasks[step.t]);
  }

  lemma BodyStepWork(s: State, n: nat, step: Step)
    requires Core(s) && Enabled(s, step) && (step.Start? || step.Return?)
    ensures TotalWork(Apply(s, step), n) < TotalWork(s, n)
  {
    assert TaskOk(s, step.t);
    LessWork(s, n, step.t, Apply(s, step).tasks[step.t]);
  }

  lemma EndStepWork(s: State, n: nat, step: Step)
    requires Core(s) && |s.tasks| <= n && Enabled(s, step) && (step.Snapshot? || step.Free?)
    ensures TotalWork(Apply(s, step), n) < TotalWork(s, n)
  {
    assert TaskOk(s, step.t);
    LessWork(s, n, step.t, Apply(s, step).tasks[step.t]);
  }

  lemma WalkOnWork(s: State, n: nat, t: nat)
    requires Core(s) && Enabled(s, WalkOn(t))
    ensures TotalWork(Apply(s, WalkOn(t)), n) < TotalWork(s, n)
  {
    WalkTurn(s, t);
    LessWork(s, n, t, Apply(s, WalkOn(t)).tasks[t]);
  }

  lemma ActTask(x: Task, job: Job, n: nat, trace: seq<int>)
    requires x.status.Running? && x.fin.Unfinished? && !x.returned && |trace| == |x.trace| + 1
    ensures Work(x.(trace := trace), job, n) < Work(x, job, n)
  {
  }

  lemma ActWork(s: State, n: nat, t: nat)
    requires Core(s) && Enabled(s, Act(t))
    ensures TotalWork(DoAct(s, t), n) < TotalWork(s, n)
  {
    var x' := DoAct(s, t).tasks[t];
    assert StatusOk(s.tasks[t], s.jobs[t]) by {
      assert TaskOk(s, t);
    }
    ActTask(s.tasks[t], s.jobs[t], n, x'.trace);
    LessWork(s, n, t, x');
    WorkMemory(Put(s, t, x'), n, DoAct(s, t).mem);
  }

  lemma TwoPutsWork(s: State, n: nat, p: nat, p': Task, t: nat, t': Task)
    requires p < |s.tasks| == |s.jobs| && t < |s.tasks| && p != t
    requires Work(p', s.jobs[p], n) + Work(t', s.jobs[t], n)
             < Work(s.tasks[p], s.jobs[p], n) + Work(s.tasks[t], s.jobs[t], n)
    ensures TotalWork(Put(Put(s, p, p'), t, t'), n) < TotalWork(s, n)
  {
    WorkPut(s, n, p, p');
    WorkPut(Put(s, p, p'), n, t, t');
  }

  lemma LinkedTask(x: Task, job: Job, n: nat, t: nat)
    requires !x.fin.Drain?
    ensures Work(WithDep(x, t), job, n) == Work(x, job, n) + 1
  {
  }

  lemma LinkWork(s: State, n: nat, t: nat)
    requires Core(s) && Enabled(s, Link(t))
    ensures TotalWork(DoLink(s, t), n) < TotalWork(s, n)
  {
    var x, p, t' := s.tasks[t], s.tasks[t].at, DoLink(s, t).tasks[t];
    assert TaskOk(s, t) && Awaited(s, t);
    LinkedTask(s.tasks[p], s.jobs[p], n, t);
    assert Work(t', s.jobs[t], n) == Work(x, s.jobs[t], n) - 2;
    TwoPutsWork(s, n, p, WithDep(s.tasks[p], t), t, t');
  }

  lemma FreedTask(x: Task, job: Job, n: nat)
    requires x.status.Waiting? && x.fin.Unfinished?
    ensures Work(Freed(x), job, n) == Work(x, job, n)
  {
  }

  lemma FurtherTask(x: Task, job: Job, n: nat)
    requires x.fin.Drain? && x.fin.k < |x.deps|
    ensures Work(OneFurther(x), job, n) < Work(x, job, n)
  {
  }

  lemma ReleaseWork(s: State, n: nat, t: nat, w: nat)
    requires |s.tasks| == |s.jobs| && t < |s.tasks| && w < |s.tasks| && t != w
    requires s.tasks[w].status.Waiting? && s.tasks[w].fin.Unfinished?
    requires s.tasks[t].fin.Drain? && s.tasks[t].fin.k < |s.tasks[t].deps|
    ensures TotalWork(Put(Put(s, w, Freed(s.tasks[w])), t, OneFurther(s.tasks[t])), n) < TotalWork(s, n)
  {
    FreedTask(s.tasks[w], s.jobs[w], n);
    FurtherTask(s.tasks[t], s.jobs[t], n);
    TwoPutsWork(s, n, w, Freed(s.tasks[w]), t, OneFurther(s.tasks[t]));
  }

  lemma ReleaseStepWork(s: State, n: nat, t: nat)
    requires Core(s) && CascadeSafe(s) && Enabled(s, Release(t))
    ensures TotalWork(DoRelease(s, t), n) < TotalWork(s, n)
  {
    var w := s.tasks[t].deps[s.tasks[t].fin.k];
    ReleaseTarget(s, t);
    ReleaseRecords(s, t, w);
    assert TaskOk(s, w);
    ReleaseWork(s, n, t, w);
  }

  lemma SignalledWork(s: State, n: nat, f: nat, upto: nat)
    requires |s.tasks| == |s.jobs| && f < |s.tasks| && StatusOk(s.tasks[f], s.jobs[f])
    requires s.tasks[f].fin.Unfinished? && (s.tasks[f].nchildren == 1 ==> s.tasks[f].returned)
    requires s.tasks[f].status.Started()
    ensures TotalWork(Put(s, f, Signalled(s.tasks[f], upto)), n) <= TotalWork(s, n)
  {
    WorkPut(s, n, f, Signalled(s.tasks[f], upto));
  }

  lemma NotifyWork(s: State, n: nat, t: nat)
    requires Inv(s) && Enabled(s, Notify(t))
    ensures TotalWork(DoNotify(s, t), n) < TotalWork(s, n)
  {
    var f := s.jobs[t].father;
    assert TaskOk(s, t);
    LessWork(s, n, t, Notified(s.tasks[t]));
    if f != NULL {
      FatherCounts(s, t);
      assert TaskOk(s, f);
      SignalledWork(Put(s, t, Notified(s.tasks[t])), n, f, s.tasks[t].fin.upto);
    }
  }

  lemma StepWork(s: State, n: nat, step: Step)
    requires Inv(s) && CascadeSafe(s) && |s.tasks| <= n && Enabled(s, step) && !step.Push?
    ensures TotalWork(Apply(s, step), n) < TotalWork(s, n)
  {
    match step
    case Read(t) => ReadWork(s, n, t);
    case Match(t) => MatchWork(s, n, t);
    case Link(t) => LinkWork(s, n, t);
    case TestFill(t) => TestWork(s, n, t);
    case Decide(_) => LeaveWork(s, n, step);
    case Leave(_) => LeaveWork(s, n, step);
    case Start(_) => BodyStepWork(s, n, step);
    case Act(t) => ActWork(s, n, t);
    case Return(_) => BodyStepWork(s, n, step);
    case Snapshot(_) => EndStepWork(s, n, step);
    case WalkOn(t) => WalkOnWork(s, n, t);
    case Release(t) => ReleaseStepWork(s, n, t);
    case Free(_) => EndStepWork(s, n, step);
    case Notify(t) => NotifyWork(s, n, t);
  }

  /** Work brought in by one job when at most `n` are ever spawned. */
  function Cost(job: Job, n: nat): int { job.steps + 9 * n + 10 }

  lemma AppendWork(s: State, n: nat, job: Job)
    requires |s.tasks| == |s.jobs| && |s.tasks| < n
    ensures TotalWork(Append(s, job), n) <= TotalWork(s, n) + Cost(job, n)
  {
    SumSame(|s.tasks|, WorkOf(s, n), WorkOf(Append(s, job), n));
    assert WorkOf(Append(s, job), n)(|s.tasks|) == Work(NewTask(job, |s.tasks| - 1), job, n);
  }

  lemma PushWork(s: State, n: nat, job: Job)
    requires |s.tasks| == |s.jobs| && |s.tasks| < n && CanPush(s, job)
    ensures TotalWork(DoPush(s, job), n) <= TotalWork(s, n) + Cost(job, n)
  {
    var f := job.father;
    if f == NULL {
      AppendWork(s, n, job);
    } else {
      WorkPut(s, n, f, WithChild(s.tasks[f]));
      AppendWork(Put(s, f, WithChild(s.tasks[f])), n, job);
    }
  }

  function Budget(jobs: seq<Job>, n: nat): int {
    if jobs == [] then 0 else Budget(jobs[..|jobs| - 1], n) + Cost(jobs[|jobs| - 1], n) + 1
  }

  lemma {:induction false} RunWithinBudget(run: seq<State>, n: nat)
    requires SafeRun(run) && |Last(run).jobs| <= n
    ensures |run| - 1 + TotalWork(Last(run), n) <= Budget(Last(run).jobs, n)
    decreases |run|
  {
    if |run| > 1 {
      var s, step := LastStep(run);
      var before := run[..|run| - 1];
      assert forall i: nat | i < |before| :: before[i] == run[i];
      SafeRunKeeps(before);
      JobsGrow(s, step);
      RunWithinBudget(before, n);
      assert CascadeSafe(before[|before| - 1]);
      if step.Push? {
        PushWork(s, n, step.job);
        assert (s.jobs + [step.job])[..|s.jobs|] == s.jobs;
      } else {
        StepWork(s, n, step);
      }
    }
  }

  lemma {:induction false} WorkNotNegative(s: State, n: nat)
    requires Core(s)
    ensures TotalWork(s, n) >= 0
  {
    forall t: nat | t < |s.tasks| ensures WorkOf(s, n)(t) >= 0 {
      assert TaskOk(s, t);
    }
    SumNonNegative(|s.tasks|, WorkOf(s, n));
  }

  /** A run that spawns `n` tasks takes at most a number of steps fixed by the program: there is no livelock. */
  lemma RunsAreBounded(run: seq<State>)
    requires SafeRun(run)
    ensures |run| - 1 <= Budget(Last(run).jobs, |Last(run).jobs|)
  {
    SafeRunKeeps(run);
    RunWithinBudget(run, |Last(run).jobs|);
    WorkNotNegative(Last(run), |Last(run).jobs|);
  }

  // ----- no deadlock

  /** Some step other than spawning can be taken. */
  ghost predicate CanStep(s: State) {
    exists step: Step :: !step.Push? && Enabled(s, step)
  }

  lemma FillingCanStep(s: State, t: nat)
    requires Core(s) && t < |s.tasks| && s.tasks[t].status.Filling?
    ensures CanStep(s)
  {
    assert TaskOk(s, t);
    var x := s.tasks[t];
    var step := match x.fill
      case Visit => if x.at == NULL || x.scape then Decide(t) else Read(t)
      case Examine => Match(t)
      case Linking(_, _) => Link(t)
      case Test => TestFill(t)
      case _ => Leave(t);
    assert Enabled(s, step);
  }

  /** Whatever waits has an edge to an older task that has not gone. */
  lemma WaitingHasEdge(s: State, t: nat) returns (p: nat)
    requires Core(s) && t < |s.tasks| && s.tasks[t].status.Waiting?
    ensures p < t && t in s.tasks[p].deps && !s.tasks[p].fin.Gone?
  {
    assert TaskOk(s, t) && CounterAt(s, t);
    p := SumHasTerm(|s.tasks|, LinksTo(s, t));
    LinkIsOlder(s, t, p);
  }

  /** Every edge points from a newer to an older task, so in a safe run the oldest unfinished task waits for nobody. */
  lemma OldestIsNotWaiting(run: seq<State>, t: nat)
    requires SafeRun(run) && t < |Last(run).tasks| && forall u: nat | u < t :: Last(run).tasks[u].fin.Gone?
    ensures !Last(run).tasks[t].status.Waiting?
  {
    SafeRunKeeps(run);
    if Last(run).tasks[t].status.Waiting? {
      var p := WaitingHasEdge(Last(run), t);
    }
  }

  lemma LinkIsOlder(s: State, t: nat, p: nat)
    requires Core(s) && p < |s.tasks| && Links(s.tasks[p], t) > 0
    ensures p < t && t in s.tasks[p].deps && !s.tasks[p].fin.Gone?
  {
    assert TaskOk(s, p);
    assert t in Undrained(s.tasks[p]);
    assert t in s.tasks[p].deps;
  }

  lemma FinishingCanStep(s: State, t: nat)
    requires Core(s) && t < |s.tasks| && !s.tasks[t].fin.Unfinished? && !s.tasks[t].fin.Gone?
    ensures CanStep(s)
  {
    assert TaskOk(s, t);
    var f := s.tasks[t].fin;
    if f.Walk? && f.p != NULL && s.tasks[f.p].status.Filling? {
      FillingCanStep(s, f.p);
    } else {
      var step := match f
        case Snap(_) => Snapshot(t)
        case Walk(_, _, _) => WalkOn(t)
        case Drain(_, _, k) => if k < |s.tasks[t].deps| then Release(t) else Free(t)
        case _ => Notify(t);
      assert Enabled(s, step);
    }
  }
}
