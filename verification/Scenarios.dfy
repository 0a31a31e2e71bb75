/** What concrete runs share: jobs without accesses, and a first task that runs. */
module Scenarios {
  import opened Regions
  import opened Protocol
  import opened Runs

  /** A region that is written. */
  const A := Region(0, 10, true, [])

  function Nothing(trace: seq<int>): Action { Idle }

  function Taking(args: seq<Region>, father: int): Job { Job(args, father, 0, Nothing) }

  /** A task that runs, has made no accesses and has spawned `nchildren - 1` tasks. */
  function Begun(job: Job, nchildren: int): Task {
    NewTask(job, NULL).(ancestor := NULL, fill := Left, status := Running, posts := 1, nchildren := nchildren)
  }

  lemma FirstBegins(a: Job) returns (run: seq<State>)
    requires a.father == NULL && Arguments(a.args)
    ensures IsGuardedRun(run) && run[0].mem == map[] && Last(run) == State([a], [Begun(a, 1)], map[])
  {
    run := [State([], [], map[])];
    run := TakeGuarded(run, Push(a));
    assert Last(run).tasks == [NewTask(a, NULL)];
    run := TakeGuarded(run, Decide(0));
    assert Last(run).tasks == [NewTask(a, NULL).(fill := Exit(true))];
    run := TakeGuarded(run, Leave(0));
    assert Last(run).tasks == [Begun(a, 1).(status := Ready)];
    run := TakeGuarded(run, Start(0));
    assert Last(run).tasks == [Begun(a, 1)];
  }
}
