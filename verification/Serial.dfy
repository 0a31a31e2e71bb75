/** Serial equivalence: whatever the interleaving of spawning, of single memory accesses and of finishing, the
    memory ends as if the tasks had run one after the other in the order in which they were spawned. */
module Serial {
  import opened Regions
  import opened Protocol
  import opened Invariants
  import opened Preservation
  import opened Steps
  import opened Linking
  import opened Spawning
  import opened Safety
  import opened Shelter
  import opened Ordering

  // ----- the sequential program

  /** The two memories hold the same at this place, or both nothing. */
  predicate AgreeAt(m: Memory, m': Memory, place: Place) {
    (place in m <==> place in m') && (place in m ==> m[place] == m'[place])
  }

  /** Memory and results after the first `k` accesses of a body that runs alone. */
  function RunBody(job: Job, m: Memory, k: nat): (Memory, seq<int>) {
    if k == 0 then (m, [])
    else
      var (m', trace) := RunBody(job, m, k - 1);
      match job.act(trace)
      case Load(a) => (m', trace + [Get(m', a)])
      case Store(a, v) => (m'[a := v], trace + [0])
      case Idle => (m', trace + [0])
  }

  /** Memory after the first `n` jobs have run one by one. */
  function SerialMemory(jobs: seq<Job>, m0: Memory, n: nat): Memory
    requires n <= |jobs|
  {
    if n == 0 then m0 else RunBody(jobs[n - 1], SerialMemory(jobs, m0, n - 1), jobs[n - 1].steps).0
  }

  predicate AccessOk(job: Job, action: Action) {
    match action
    case Load(a) => Touches(job.args, a)
    case Store(a, _) => Writes(job.args, a)
    case Idle => true
  }

  /** The body reads only declared regions and writes only regions declared writable. */
  ghost predicate WellBehaved(job: Job) {
    forall trace: seq<int> :: AccessOk(job, job.act(trace))
  }

  ghost predicate GoodBodies(jobs: seq<Job>) {
    SpawnersApart(jobs) && forall t: nat | t < |jobs| :: WellBehaved(jobs[t])
  }

  /** The body makes no accesses. */
  ghost predicate Idles(job: Job) {
    forall trace: seq<int> :: job.act(trace).Idle?
  }

  ghost predicate MayTouch(job: Job, place: Place) { !Idles(job) && Touches(job.args, place) }

  ghost predicate MayWrite(job: Job, place: Place) { !Idles(job) && Writes(job.args, place) }

  /** No place is touched by both bodies and written by one, unless the older task spawns nothing. */
  ghost predicate Apart(jobs: seq<Job>, a: nat, b: nat)
    requires a < b < |jobs|
  {
    !Idles(jobs[a]) && !Idles(jobs[b]) && !Childless(jobs, a) ==>
      forall place: Place :: !RaceAt(jobs[a].args, jobs[b].args, place)
  }

  /** A task that spawns shares no place that is written with a newer task, unless one of them makes no accesses. */
  ghost predicate SpawnersApart(jobs: seq<Job>) {
    forall a: nat, b: nat | a < b < |jobs| :: Apart(jobs, a, b)
  }

  lemma {:induction false} BodyKeepsUnwritten(job: Job, m: Memory, k: nat, place: Place)
    requires WellBehaved(job) && !MayWrite(job, place)
    ensures AgreeAt(RunBody(job, m, k).0, m, place)
  {
    if k > 0 {
      BodyKeepsUnwritten(job, m, k - 1, place);
      assert AccessOk(job, job.act(RunBody(job, m, k - 1).1));
    }
  }

  lemma {:induction false} SerialKeepsUnwritten(jobs: seq<Job>, m0: Memory, t: nat, u: nat, place: Place)
    requires t <= u <= |jobs| && forall j: nat | j < |jobs| :: WellBehaved(jobs[j])
    requires forall j: nat | t <= j < u :: !MayWrite(jobs[j], place)
    ensures AgreeAt(SerialMemory(jobs, m0, t), SerialMemory(jobs, m0, u), place)
    decreases u
  {
    if t < u {
      SerialKeepsUnwritten(jobs, m0, t, u - 1, place);
      BodyKeepsUnwritten(jobs[u - 1], SerialMemory(jobs, m0, u - 1), jobs[u - 1].steps, place);
    }
  }

  lemma {:induction false} SerialPrefix(jobs: seq<Job>, job: Job, m0: Memory, n: nat)
    requires n <= |jobs|
    ensures SerialMemory(jobs + [job], m0, n) == SerialMemory(jobs, m0, n)
    decreases n
  {
    if n > 0 {
      SerialPrefix(jobs, job, m0, n - 1);
    }
  }

  // ----- what the concurrent memory has to do with it

  /** Where a body that has done as many accesses as `t` would stand in the sequential program. */
  function Expected(s: State, m0: Memory, t: nat): (Memory, seq<int>)
    requires t < |s.tasks| == |s.jobs|
  {
    RunBody(s.jobs[t], SerialMemory(s.jobs, m0, t), |s.tasks[t].trace|)
  }

  /** The body of `t` has seen what it sees in the sequential program. */
  predicate TraceAgrees(s: State, m0: Memory, t: nat)
    requires t < |s.tasks| == |s.jobs|
  {
    s.tasks[t].trace == Expected(s, m0, t).1
  }

  /** While `t` runs, its regions hold what they hold at the same point of the sequential program. */
  ghost predicate RegionsAgree(s: State, m0: Memory, t: nat, place: Place)
    requires t < |s.tasks| == |s.jobs|
  {
    s.tasks[t].status.Running? && MayTouch(s.jobs[t], place) ==>
      AgreeAt(s.mem, Expected(s, m0, t).0, place)
  }

  /** Every writer of the place before `t` has finished, and none from `t` on has started. */
  ghost predicate Settled(s: State, place: Place, t: nat)
    requires |s.tasks| == |s.jobs|
  {
    forall j: nat | j < |s.tasks| && MayWrite(s.jobs[j], place) ::
      if j < t then !s.tasks[j].status.Live() else !s.tasks[j].status.Started()
  }

  ghost predicate SettledAgrees(s: State, m0: Memory, place: Place, t: nat)
    requires t <= |s.tasks| == |s.jobs|
  {
    Settled(s, place, t) ==> AgreeAt(s.mem, SerialMemory(s.jobs, m0, t), place)
  }

  ghost predicate MemoryOk(s: State, m0: Memory) {
    && |s.tasks| == |s.jobs|
    && (forall t: nat | t < |s.tasks| :: TraceAgrees(s, m0, t))
    && (forall t: nat, place: Place | t < |s.tasks| :: RegionsAgree(s, m0, t, place))
    && (forall t: nat, place: Place | t <= |s.tasks| :: SettledAgrees(s, m0, place, t))
  }

  // ----- steps

  /** Nothing the memory invariant depends on has changed. */
  predicate SameProgress(x: Task, x': Task) {
    (x'.status.Started() <==> x.status.Started()) && (x'.status.Live() <==> x.status.Live())
  }

  lemma PutMemory(s: State, m0: Memory, t: nat, x: Task)
    requires t < |s.tasks| == |s.jobs| && MemoryOk(s, m0) && x.trace == s.tasks[t].trace
    requires SameProgress(s.tasks[t], x)
    ensures MemoryOk(Put(s, t, x), m0)
  {
    var s' := Put(s, t, x);
    forall u: nat | u < |s.tasks| ensures TraceAgrees(s', m0, u) {
      assert TraceAgrees(s, m0, u);
    }
    forall u: nat, place: Place | u < |s.tasks| ensures RegionsAgree(s', m0, u, place) {
      assert RegionsAgree(s, m0, u, place);
    }
    forall u: nat, place: Place | u <= |s.tasks| ensures SettledAgrees(s', m0, place, u) {
      assert SettledAgrees(s, m0, place, u);
      assert Settled(s', place, u) ==> Settled(s, place, u);
    }
  }

  /** The order of opposed tasks holds, and tasks that spawn are apart from the others. */
  ghost predicate KeptApart(s: State) {
    Core(s) && Ordered(s) && GoodProgram(s.jobs) && SpawnersApart(s.jobs)
  }

  lemma BothTouchOneWrites(s: State, a: nat, b: nat, place: Place)
    requires KeptApart(s) && a < b < |s.tasks|
    requires s.tasks[b].status.Posted() && !Idles(s.jobs[a]) && !Idles(s.jobs[b])
    requires RaceAt(s.jobs[a].args, s.jobs[b].args, place)
    ensures !s.tasks[a].status.Live()
  {
    assert TaskOk(s, a) && TaskOk(s, b) && Apart(s.jobs, a, b);
    if Descendant(s.jobs, b, a) {
      AncestorHasChild(s.jobs, b, a);
    }
    assert GoodPair(s.jobs[a].args, s.jobs[b].args);
    RaceConflicts(s.jobs[a].args, s.jobs[b].args, place);
    PostedMeansClear(s, b, a);
  }

  /** When `t` becomes ready, the memory it touches is as in the sequential program. */
  lemma ReadyIsSettled(s: State, t: nat, place: Place)
    requires KeptApart(s) && t < |s.tasks| && s.tasks[t].status.Ready?
    requires MayTouch(s.jobs[t], place)
    ensures Settled(s, place, t)
  {
    forall j: nat | j < |s.tasks| && MayWrite(s.jobs[j], place)
      ensures if j < t then !s.tasks[j].status.Live() else !s.tasks[j].status.Started()
    {
      if j < t {
        BothTouchOneWrites(s, j, t, place);
      } else if j > t && s.tasks[j].status.Started() {
        BothTouchOneWrites(s, t, j, place);
      }
    }
  }

  lemma StartMemory(s: State, m0: Memory, t: nat)
    requires KeptApart(s) && MemoryOk(s, m0)
    requires t < |s.tasks| && s.tasks[t].status.Ready?
    ensures MemoryOk(Put(s, t, s.tasks[t].(status := Running)), m0)
  {
    var s' := Put(s, t, s.tasks[t].(status := Running));
    assert TaskOk(s, t);
    forall u: nat | u < |s.tasks| ensures TraceAgrees(s', m0, u) {
      assert TraceAgrees(s, m0, u);
    }
    forall u: nat, place: Place | u < |s.tasks| ensures RegionsAgree(s', m0, u, place) {
      assert RegionsAgree(s, m0, u, place);
      if u == t && MayTouch(s.jobs[t], place) {
        ReadyIsSettled(s, t, place);
        assert SettledAgrees(s, m0, place, t);
      }
    }
    forall u: nat, place: Place | u <= |s.tasks| ensures SettledAgrees(s', m0, place, u) {
      assert SettledAgrees(s, m0, place, u);
      assert Settled(s', place, u) ==> Settled(s, place, u);
    }
  }

  /** No other running task touches what `t` writes. */
  lemma WriterAlone(s: State, t: nat, u: nat, place: Place)
    requires KeptApart(s) && t < |s.tasks| && u < |s.tasks| && t != u
    requires s.tasks[t].status.Running? && MayWrite(s.jobs[t], place) && MayTouch(s.jobs[u], place)
    ensures !s.tasks[u].status.Running?
  {
    if s.tasks[u].status.Running? {
      if u < t {
        BothTouchOneWrites(s, u, t, place);
      } else {
        BothTouchOneWrites(s, t, u, place);
      }
    }
  }

  lemma StoreMemory(s: State, m0: Memory, t: nat, a: Place, v: int)
    requires KeptApart(s) && MemoryOk(s, m0) && GoodBodies(s.jobs) && t < |s.tasks|
    requires s.tasks[t].status.Running? && s.jobs[t].act(s.tasks[t].trace) == Store(a, v)
    ensures MemoryOk(Put(s, t, AfterAccess(s.tasks[t], 0)).(mem := s.mem[a := v]), m0)
  {
    var s' := Put(s, t, AfterAccess(s.tasks[t], 0)).(mem := s.mem[a := v]);
    assert TraceAgrees(s, m0, t);
    assert WellBehaved(s.jobs[t]) && AccessOk(s.jobs[t], s.jobs[t].act(s.tasks[t].trace));
    forall u: nat | u < |s.tasks| ensures TraceAgrees(s', m0, u) {
      assert TraceAgrees(s, m0, u);
    }
    forall u: nat, place: Place | u < |s.tasks| ensures RegionsAgree(s', m0, u, place) {
      assert RegionsAgree(s, m0, u, place);
      if u != t && MayTouch(s.jobs[u], a) {
        WriterAlone(s, t, u, a);
      }
    }
    forall u: nat, place: Place | u <= |s.tasks| ensures SettledAgrees(s', m0, place, u) {
      assert SettledAgrees(s, m0, place, u);
      if Settled(s', place, u) {
        assert Settled(s, place, u);
        assert place != a;
      }
    }
  }

  lemma QuietMemory(s: State, m0: Memory, t: nat, result: int)
    requires Core(s) && MemoryOk(s, m0) && GoodBodies(s.jobs) && t < |s.tasks| && s.tasks[t].status.Running?
    requires match s.jobs[t].act(s.tasks[t].trace)
             case Load(a) => result == Get(s.mem, a)
             case Store(_, _) => false
             case Idle => result == 0
    ensures MemoryOk(Put(s, t, AfterAccess(s.tasks[t], result)), m0)
  {
    var s' := Put(s, t, AfterAccess(s.tasks[t], result));
    assert TraceAgrees(s, m0, t);
    assert WellBehaved(s.jobs[t]) && AccessOk(s.jobs[t], s.jobs[t].act(s.tasks[t].trace));
    if s.jobs[t].act(s.tasks[t].trace).Load? {
      assert RegionsAgree(s, m0, t, s.jobs[t].act(s.tasks[t].trace).from);
    }
    forall u: nat | u < |s.tasks| ensures TraceAgrees(s', m0, u) {
      assert TraceAgrees(s, m0, u);
    }
    forall u: nat, place: Place | u < |s.tasks| ensures RegionsAgree(s', m0, u, place) {
      assert RegionsAgree(s, m0, u, place);
    }
    forall u: nat, place: Place | u <= |s.tasks| ensures SettledAgrees(s', m0, place, u) {
      assert SettledAgrees(s, m0, place, u);
      assert Settled(s', place, u) ==> Settled(s, place, u);
    }
  }

  lemma ActMemory(s: State, m0: Memory, t: nat)
    requires KeptApart(s) && MemoryOk(s, m0) && GoodBodies(s.jobs) && Enabled(s, Act(t))
    ensures MemoryOk(DoAct(s, t), m0)
  {
    match s.jobs[t].act(s.tasks[t].trace)
    case Load(a) => QuietMemory(s, m0, t, Get(s.mem, a));
    case Store(a, v) => StoreMemory(s, m0, t, a, v);
    case Idle => QuietMemory(s, m0, t, 0);
  }

  /** What a finished task leaves behind is what the sequential program has after it. */
  lemma FinishedSettles(s: State, m0: Memory, t: nat, u: nat, place: Place)
    requires KeptApart(s) && MemoryOk(s, m0) && GoodBodies(s.jobs) && t < u <= |s.tasks|
    requires s.tasks[t].status.Running? && |s.tasks[t].trace| == s.jobs[t].steps && MayWrite(s.jobs[t], place)
    requires forall j: nat | j < u && j != t && MayWrite(s.jobs[j], place) :: !s.tasks[j].status.Live()
    ensures AgreeAt(s.mem, SerialMemory(s.jobs, m0, u), place)
  {
    assert RegionsAgree(s, m0, t, place);
    forall j: nat | t < j < u ensures !MayWrite(s.jobs[j], place) {
      if MayWrite(s.jobs[j], place) {
        BothTouchOneWrites(s, t, j, place);
      }
    }
    SerialKeepsUnwritten(s.jobs, m0, t + 1, u, place);
  }

  /** A body that has made all its accesses returns, and its task may be done. */
  lemma EndMemory(s: State, m0: Memory, t: nat, x: Task)
    requires KeptApart(s) && MemoryOk(s, m0) && GoodBodies(s.jobs) && t < |s.tasks|
    requires s.tasks[t].status.Running? && |s.tasks[t].trace| == s.jobs[t].steps
    requires x.trace == s.tasks[t].trace && (x.status.Running? || x.status.Done?)
    ensures MemoryOk(Put(s, t, x), m0)
  {
    var s' := Put(s, t, x);
    forall u: nat | u < |s.tasks| ensures TraceAgrees(s', m0, u) {
      assert TraceAgrees(s, m0, u);
    }
    forall u: nat, place: Place | u < |s.tasks| ensures RegionsAgree(s', m0, u, place) {
      assert RegionsAgree(s, m0, u, place);
    }
    forall u: nat, place: Place | u <= |s.tasks| ensures SettledAgrees(s', m0, place, u) {
      assert SettledAgrees(s, m0, place, u);
      if Settled(s', place, u) {
        if MayWrite(s.jobs[t], place) {
          FinishedSettles(s, m0, t, u, place);
        } else {
          assert Settled(s, place, u);
        }
      }
    }
  }

  lemma ReturnMemory(s: State, m0: Memory, t: nat)
    requires KeptApart(s) && MemoryOk(s, m0) && GoodBodies(s.jobs) && Enabled(s, Return(t))
    ensures MemoryOk(Apply(s, Return(t)), m0)
  {
    EndMemory(s, m0, t, Signalled(s.tasks[t].(returned := true), t));
  }

  lemma AppendSettled(s: State, job: Job, place: Place, u: nat)
    requires |s.tasks| == |s.jobs| && u <= |s.tasks| + 1 && Settled(Append(s, job), place, u)
    ensures Settled(s, place, if u <= |s.tasks| then u else |s.tasks|)
  {
    var s' := Append(s, job);
    forall j: nat | j < |s.tasks| && MayWrite(s.jobs[j], place)
      ensures if j < u then !s.tasks[j].status.Live() else !s.tasks[j].status.Started()
    {
      assert s'.jobs[j] == s.jobs[j] && s'.tasks[j] == s.tasks[j];
    }
  }

  lemma AppendMemory(s: State, m0: Memory, job: Job)
    requires |s.tasks| == |s.jobs| && MemoryOk(s, m0) && GoodBodies(s.jobs) && WellBehaved(job)
    ensures MemoryOk(Append(s, job), m0)
  {
    var s' := Append(s, job);
    var n := |s.tasks|;
    forall u: nat | u <= n ensures TraceAgrees(s', m0, u) {
      SerialPrefix(s.jobs, job, m0, u);
      assert u < n ==> TraceAgrees(s, m0, u);
    }
    forall u: nat, place: Place | u <= n ensures RegionsAgree(s', m0, u, place) {
      SerialPrefix(s.jobs, job, m0, u);
      assert u < n ==> RegionsAgree(s, m0, u, place);
    }
    forall u: nat, place: Place | u <= n + 1 ensures SettledAgrees(s', m0, place, u) {
      if Settled(s', place, u) {
        AppendSettled(s, job, place, u);
        if u <= n {
          SerialPrefix(s.jobs, job, m0, u);
          assert SettledAgrees(s, m0, place, u);
        } else {
          assert SettledAgrees(s, m0, place, n);
          assert s'.jobs[n] == job && s'.tasks[n].status.Live();
          SerialPrefix(s.jobs, job, m0, n);
          SerialKeepsUnwritten(s'.jobs, m0, n, n + 1, place);
        }
      }
    }
  }

  lemma LinkMemory(s: State, m0: Memory, t: nat)
    requires Core(s) && MemoryOk(s, m0) && Enabled(s, Link(t))
    ensures MemoryOk(DoLink(s, t), m0)
  {
    var p := s.tasks[t].at;
    assert TaskOk(s, t);
    PutMemory(s, m0, p, WithDep(s.tasks[p], t));
    PutMemory(Put(s, p, WithDep(s.tasks[p], t)), m0, t, DoLink(s, t).tasks[t]);
  }

  lemma ReleaseMemory(s: State, m0: Memory, t: nat)
    requires |s.tasks| == |s.jobs| && MemoryOk(s, m0) && Enabled(s, Release(t))
    requires var w := s.tasks[t].deps[s.tasks[t].fin.k]; t < w && s.tasks[w].status.Waiting?
    ensures MemoryOk(DoRelease(s, t), m0)
  {
    var w := s.tasks[t].deps[s.tasks[t].fin.k];
    PutMemory(s, m0, w, Freed(s.tasks[w]));
    PutMemory(Put(s, w, Freed(s.tasks[w])), m0, t, DoRelease(s, t).tasks[t]);
  }

  lemma NotifyMemory(s: State, m0: Memory, t: nat)
    requires Inv(s) && KeptApart(s) && MemoryOk(s, m0) && GoodBodies(s.jobs) && Enabled(s, Notify(t))
    ensures MemoryOk(DoNotify(s, t), m0)
  {
    var f := s.jobs[t].father;
    var mid := Put(s, t, Notified(s.tasks[t]));
    assert TaskOk(s, t);
    PutMemory(s, m0, t, Notified(s.tasks[t]));
    if f != NULL {
      var f' := Signalled(s.tasks[f], s.tasks[t].fin.upto);
      FatherCounts(s, t);
      assert TaskOk(s, f);
      if s.tasks[f].nchildren == 1 {
        PutOrdered(s, t, Notified(s.tasks[t]));
        NotifiedKeeps(s, t);
        EndMemory(mid, m0, f, f');
      } else {
        PutMemory(mid, m0, f, f');
      }
    }
  }

  lemma PushMemory(s: State, m0: Memory, job: Job)
    requires |s.tasks| == |s.jobs| && MemoryOk(s, m0) && CanPush(s, job) && GoodBodies(s.jobs) && WellBehaved(job)
    ensures MemoryOk(DoPush(s, job), m0)
  {
    if job.father == NULL {
      AppendMemory(s, m0, job);
    } else {
      PutMemory(s, m0, job.father, WithChild(s.tasks[job.father]));
      AppendMemory(Put(s, job.father, WithChild(s.tasks[job.father])), m0, job);
    }
  }

  lemma OwnStepMemory(s: State, m0: Memory, step: Step)
    requires Core(s) && MemoryOk(s, m0) && Enabled(s, step) && WritesOwnRecord(step)
    requires !step.Start? && !step.Act? && !step.Return?
    ensures MemoryOk(Apply(s, step), m0)
  {
    assert TaskOk(s, step.t);
    PutMemory(s, m0, step.t, Apply(s, step).tasks[step.t]);
  }

  /** Every step of a good program keeps the memory in agreement with the sequential program. */
  lemma StepKeepsMemory(s: State, m0: Memory, step: Step)
    requires Inv(s) && CascadeSafe(s) && KeptApart(s) && MemoryOk(s, m0) && GoodBodies(s.jobs) && Enabled(s, step)
    requires step.Push? ==> WellBehaved(step.job)
    ensures MemoryOk(Apply(s, step), m0)
  {
    match step
    case Push(job) => PushMemory(s, m0, job);
    case Link(t) => LinkMemory(s, m0, t);
    case Start(t) => StartMemory(s, m0, t);
    case Act(t) => ActMemory(s, m0, t);
    case Return(t) => ReturnMemory(s, m0, t);
    case Release(t) =>
      ReleaseTarget(s, t);
      ReleaseMemory(s, m0, t);
    case Notify(t) => NotifyMemory(s, m0, t);
    case _ => OwnStepMemory(s, m0, step);
  }
}
