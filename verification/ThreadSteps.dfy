/** What threads share, what one thread can rely on while others run, and what its next access is, given where its
    own variables stand. */
module ThreadSteps {
  import opened Regions
  import opened ArgScan
  import opened Containment
  import opened ArgList
  import opened Protocol
  import opened Invariants
  import opened Preservation
  import opened Safety
  import opened Spawning
  import opened Shelter
  import opened Runs
  import opened Guarantees
  import opened Sums

  // ----- what threads share

  /** The shared fields of a task. */
  datatype Item = Item(
    status: Status,
    pending: bool,
    scape: bool,
    father: int,
    ndependencies: int,
    nchildren: int,
    deps: seq<nat>)

  function Shared(x: Task, father: int): Item {
    Item(x.status, x.pending, x.scape, father, x.ndeps, x.nchildren, x.deps)
  }

  predicate ShowsAt(items: seq<Item>, s: State, t: nat)
    requires t < |items| == |s.tasks| == |s.jobs|
  {
    items[t] == Shared(s.tasks[t], s.jobs[t].father)
  }

  /** The worklist is what the state says. */
  predicate Shows(items: seq<Item>, s: State) {
    |items| == |s.tasks| == |s.jobs| && forall t: nat | t < |items| :: ShowsAt(items, s, t)
  }

  function AllShared(s: State): (items: seq<Item>)
    requires |s.tasks| == |s.jobs|
    ensures Shows(items, s)
  {
    seq(|s.tasks|, t requires 0 <= t < |s.tasks| => Shared(s.tasks[t], s.jobs[t].father))
  }

  lemma ShowsPut(items: seq<Item>, s: State, t: nat, x: Task)
    requires Shows(items, s) && t < |s.tasks|
    ensures Shows(items[t := Shared(x, s.jobs[t].father)], Put(s, t, x))
  {
    var items' := items[t := Shared(x, s.jobs[t].father)];
    forall u: nat | u < |items| ensures ShowsAt(items', Put(s, t, x), u) {
      assert ShowsAt(items, s, u);
    }
  }

  /** A step on variables of the thread only. */
  lemma ShowsPrivate(items: seq<Item>, s: State, t: nat, x: Task)
    requires Shows(items, s) && t < |s.tasks| && Shared(x, s.jobs[t].father) == Shared(s.tasks[t], s.jobs[t].father)
    ensures Shows(items, Put(s, t, x))
  {
    ShowsPut(items, s, t, x);
    assert ShowsAt(items, s, t);
    assert items[t := items[t]] == items;
  }

  lemma ShowsMemory(items: seq<Item>, s: State, mem: Memory)
    requires Shows(items, s)
    ensures Shows(items, s.(mem := mem))
  {
    forall u: nat | u < |items| ensures ShowsAt(items, s.(mem := mem), u) {
      assert ShowsAt(items, s, u);
    }
  }

  function WithChildCounted(items: seq<Item>, f: int): seq<Item> {
    if 0 <= f < |items| then items[f := items[f].(nchildren := items[f].nchildren + 1)] else items
  }

  /** What a spawn pushes. */
  function NewItem(father: int): Item { Item(Filling, false, false, father, 0, 1, []) }

  lemma ShowsPush(items: seq<Item>, s: State, job: Job)
    requires Shows(items, s) && CanPush(s, job)
    ensures Shows(WithChildCounted(items, job.father) + [NewItem(job.father)], DoPush(s, job))
  {
    var items', s' := WithChildCounted(items, job.father) + [NewItem(job.father)], DoPush(s, job);
    forall u: nat | u < |items'| ensures ShowsAt(items', s', u) {
      assert u < |items| ==> ShowsAt(items, s, u);
    }
  }

  // ----- argument lists

  ghost function Footprint(nodes: seq<seq<ArgInfo>>): set<ArgInfo> {
    set t, i | 0 <= t < |nodes| && 0 <= i < |nodes[t]| :: nodes[t][i]
  }

  ghost predicate ListAt(args: seq<ArgInfo?>, nodes: seq<seq<ArgInfo>>, s: State, t: nat)
    requires t < |args| == |nodes| == |s.tasks| == |s.jobs|
    reads Footprint(nodes)
  {
    !s.tasks[t].status.Deallocatable? ==> Linked(args[t], nodes[t]) && Views(nodes[t]) == s.jobs[t].args
  }

  /** Each task has its argument list, until it frees it. */
  ghost predicate Lists(args: seq<ArgInfo?>, nodes: seq<seq<ArgInfo>>, s: State)
    reads Footprint(nodes)
  {
    |args| == |nodes| == |s.tasks| == |s.jobs| && forall t: nat | t < |nodes| :: ListAt(args, nodes, s, t)
  }

  lemma ListsStay(args: seq<ArgInfo?>, nodes: seq<seq<ArgInfo>>, s: State, step: Step)
    requires Inv(s) && CascadeSafe(s) && Enabled(s, step) && !step.Push? && Lists(args, nodes, s)
    ensures Lists(args, nodes, Apply(s, step))
  {
    var s' := Apply(s, step);
    JobsGrow(s, step);
    forall t: nat | t < |nodes| ensures t < |s'.tasks| && ListAt(args, nodes, s', t) {
      assert ListAt(args, nodes, s, t);
      Moved(s, step, t);
    }
    assert |s'.tasks| == |s.tasks|;
  }

  lemma ListsFreed(args: seq<ArgInfo?>, nodes: seq<seq<ArgInfo>>, s: State, c: nat)
    requires Inv(s) && CascadeSafe(s) && Enabled(s, Free(c)) && Lists(args, nodes, s)
    ensures Lists(args[c := null], nodes, Apply(s, Free(c)))
  {
    ListsStay(args, nodes, s, Free(c));
    var s', args' := Apply(s, Free(c)), args[c := null];
    forall t: nat | t < |nodes| ensures ListAt(args', nodes, s', t) {
      assert ListAt(args, nodes, s', t);
    }
  }

  lemma ListsGrow(args: seq<ArgInfo?>, nodes: seq<seq<ArgInfo>>, s: State, job: Job, head: ArgInfo?, list: seq<ArgInfo>)
    requires Inv(s) && CascadeSafe(s) && CanPush(s, job) && Lists(args, nodes, s)
    requires Linked(head, list) && Views(list) == job.args
    ensures Lists(args + [head], nodes + [list], DoPush(s, job))
  {
    var s' := DoPush(s, job);
    JobsGrow(s, Push(job));
    forall t: nat | t < |s'.tasks| ensures ListAt(args + [head], nodes + [list], s', t) {
      if t < |s.tasks| {
        assert ListAt(args, nodes, s, t);
        Moved(s, Push(job), t);
      }
    }
  }

  // ----- what a thread can rely on while others run

  /** The scan, the body and the end of a task are in the hands of one thread. */
  predicate Mine(x: Task, x': Task) {
    && (x.status.Filling? ==> x'.(deps := x.deps) == x)
    && (x.status.Started() && (!x.returned || !x.fin.Unfinished?) ==>
          x'.status == x.status && x'.trace == x.trace && x'.returned == x.returned && x'.fin == x.fin)
    && (Draining(x) ==> x'.deps == x.deps && x'.fin == x.fin)
  }

  predicate MineAt(s: State, s': State, t: nat)
    requires t < |s.tasks| <= |s'.tasks|
  {
    Mine(s.tasks[t], s'.tasks[t])
  }

  lemma MineStill(s: State, s': State, s'': State, t: nat)
    requires t < |s.tasks| <= |s'.tasks| <= |s''.tasks| && MineAt(s, s', t) && MineAt(s', s'', t)
    ensures MineAt(s, s'', t)
  {
  }

  /** A step that no thread takes for task `t`. */
  predicate OfOthers(step: Step, t: nat) { step.Push? || step.t != t }

  lemma OthersPush(s: State, job: Job, t: nat)
    requires Inv(s) && CanPush(s, job) && t < |s.tasks|
    ensures |s.tasks| <= |DoPush(s, job).tasks| && MineAt(s, DoPush(s, job), t)
  {
    assert TaskOk(s, t);
  }

  lemma OthersLink(s: State, u: nat, t: nat)
    requires Inv(s) && Enabled(s, Link(u)) && t < |s.tasks| && u != t
    ensures MineAt(s, DoLink(s, u), t)
  {
    assert TaskOk(s, u) && Awaited(s, u);
  }

  lemma OthersRelease(s: State, u: nat, t: nat)
    requires Inv(s) && CascadeSafe(s) && Enabled(s, Release(u)) && t < |s.tasks| && u != t
    ensures MineAt(s, DoRelease(s, u), t)
  {
    ReleaseTarget(s, u);
    assert TaskOk(s, t);
  }

  lemma OthersNotify(s: State, u: nat, t: nat)
    requires Inv(s) && Enabled(s, Notify(u)) && t < |s.tasks| && u != t
    ensures MineAt(s, DoNotify(s, u), t)
  {
    assert TaskOk(s, u);
    if s.jobs[u].father == t {
      FatherCounts(s, u);
      assert HasStarted(s, t);
    }
  }

  lemma OthersKeep(s: State, step: Step, t: nat)
    requires Inv(s) && CascadeSafe(s) && Enabled(s, step) && t < |s.tasks| && OfOthers(step, t)
    ensures |s.tasks| <= |Apply(s, step).tasks| && MineAt(s, Apply(s, step), t)
  {
    match step
    case Push(job) => OthersPush(s, job, t);
    case Link(u) => OthersLink(s, u, t);
    case Release(u) => OthersRelease(s, u, t);
    case Notify(u) => OthersNotify(s, u, t);
    case _ => OwnStepFrame(s, step);
  }

  // ----- the accesses of an insertion

  /** The variables of the thread that inserts `t`. */
  predicate Stands(s: State, t: nat, fill: Fill, p: int, ancestor: int, argv: seq<Region>) {
    && t < |s.tasks| == |s.jobs| && NULL <= p < t && NULL <= ancestor < t
    && s.tasks[t].status.Filling? && !s.tasks[t].scape && s.tasks[t].fill == fill
    && s.tasks[t].at == p && s.tasks[t].ancestor == ancestor && s.tasks[t].argv == argv
    && (ancestor != NULL ==> Descendant(s.jobs, t, ancestor))
  }

  lemma StandsStill(s: State, s': State, t: nat, fill: Fill, p: int, ancestor: int, argv: seq<Region>)
    requires Stands(s, t, fill, p, ancestor, argv) && s.jobs <= s'.jobs && |s.tasks| <= |s'.tasks| == |s'.jobs|
    requires MineAt(s, s', t)
    ensures Stands(s', t, fill, p, ancestor, argv)
  {
    if ancestor != NULL {
      DescendantGrows(s.jobs, s'.jobs, t, ancestor);
    }
  }

  /** The father of an ancestor of a task that is filling has not finished, so its arguments are there. */
  lemma AncestorLives(s: State, t: nat, p: nat)
    requires Inv(s) && t < |s.tasks| && p < t && s.tasks[t].status.Filling? && Descendant(s.jobs, t, p)
    ensures var a := s.jobs[p].father;
            a == NULL || (0 <= a < p && s.tasks[a].status.Live() && Descendant(s.jobs, t, a))
  {
    var a := s.jobs[p].father;
    assert TaskOk(s, p) && TaskOk(s, t);
    if a != NULL {
      DescendantOfFather(s.jobs, t, p);
      assert TaskOk(s, a);
      InvIsFamily(s);
      if !s.tasks[a].fin.Unfinished? {
        SignalledSubtree(s, t, a);
      }
    }
  }

  lemma AncestorStep(s: State, t: nat, p: nat, argv: seq<Region>, contained: bool)
    requires Inv(s) && Stands(s, t, Visit, p, p, argv) && NULL <= s.jobs[p].father < p
    requires contained <==>
               s.jobs[p].father != NULL && ContainedFrom(s.jobs[t].args, s.jobs[s.jobs[p].father].args, 0, 0)
    ensures var x, a := s.tasks[t], s.jobs[p].father;
            && Enabled(s, Read(t))
            && DoRead(s, t) == Put(s, t, if contained then x.(ancestor := a, scape := true)
                                         else x.(ancestor := a, at := p - 1))
  {
  }

  lemma ReadStep(s: State, t: nat, p: nat, ancestor: int, argv: seq<Region>)
    requires Inv(s) && Stands(s, t, Visit, p, ancestor, argv) && p != ancestor
    ensures Enabled(s, Read(t))
    ensures DoRead(s, t) == Put(s, t, if s.tasks[p].status.Live() then s.tasks[t].(fill := Examine)
                                      else s.tasks[t].(at := p - 1))
  {
  }

  function Matched(x: Task, m: Option<(nat, nat)>): Task {
    match m
    case None => x.(fill := Test)
    case Some(hit) => x.(fill := Linking(hit.0, hit.1), ndeps := x.ndeps + 1)
  }

  lemma MatchStep(s: State, t: nat, p: nat, ancestor: int, argv: seq<Region>)
    requires Inv(s) && Stands(s, t, Examine, p, ancestor, argv)
    ensures Enabled(s, Match(t)) && !s.tasks[p].status.Deallocatable?
    ensures DoMatch(s, t) == Put(s, t, Matched(s.tasks[t], Scan(s.jobs[p].args, argv)))
  {
    assert TaskOk(s, p) && Awaited(s, t);
  }

  lemma LinkStep(s: State, t: nat, k: nat, l: nat, p: nat, ancestor: int, argv: seq<Region>)
    requires Inv(s) && Stands(s, t, Fill.Linking(k, l), p, ancestor, argv)
    ensures Enabled(s, Link(t)) && k < |s.jobs[p].args| && l < |argv|
    ensures DoLink(s, t) == Put(Put(s, p, Linking.WithDep(s.tasks[p], t)), t,
                                Linking.Linked(s.tasks[t], Prune(s.jobs[p].args, k, argv, l)))
  {
    assert TaskOk(s, t);
  }

  lemma TestStep(s: State, t: nat, p: nat, ancestor: int, argv: seq<Region>)
    requires Inv(s) && Stands(s, t, Test, p, ancestor, argv)
    ensures Enabled(s, TestFill(t))
    ensures var x := s.tasks[t];
            DoTest(s, t) ==
            Put(s, t, x.(fill := Visit, at := p - 1, pending := x.pending || s.tasks[p].status.Filling?))
  {
  }

  /** The scan of `t` has ended, at the end of the list or at an ancestor that contains it. */
  predicate ScanOver(s: State, t: nat) {
    && t < |s.tasks| == |s.jobs| && s.tasks[t].status.Filling? && s.tasks[t].fill.Visit?
    && (s.tasks[t].at == NULL || s.tasks[t].scape)
  }

  predicate Leaving(s: State, t: nat, zero: bool) {
    t < |s.tasks| == |s.jobs| && s.tasks[t].status.Filling? && s.tasks[t].fill == Exit(zero)
  }

  lemma EndsAtTheEnd(s: State, t: nat, ancestor: int, argv: seq<Region>)
    requires Stands(s, t, Visit, NULL, ancestor, argv)
    ensures ScanOver(s, t)
  {
  }

  /** A new task begins its scan at the task before it, with its father as the ancestor. */
  lemma BeginsScan(s: State, job: Job)
    requires Inv(s) && CanPush(s, job)
    ensures Stands(DoPush(s, job), |s.tasks|, Visit, |s.tasks| - 1, job.father, job.args)
  {
  }

  lemma DecideStep(s: State, t: nat)
    requires ScanOver(s, t)
    ensures Enabled(s, Decide(t)) && Leaving(Apply(s, Decide(t)), t, s.tasks[t].ndeps == 0)
    ensures Apply(s, Decide(t)) == Put(s, t, s.tasks[t].(fill := Exit(s.tasks[t].ndeps == 0)))
  {
  }

  lemma StaysThere(s: State, s': State, t: nat)
    requires t < |s.tasks| <= |s'.tasks| == |s'.jobs| && MineAt(s, s', t)
    ensures ScanOver(s, t) ==> ScanOver(s', t)
    ensures forall zero: bool :: Leaving(s, t, zero) ==> Leaving(s', t, zero)
  {
  }

  // ----- the accesses of a body and of the end of a task

  /** The body of `t` has made the accesses with the results `trace`. */
  predicate InBody(s: State, t: nat, trace: seq<int>) {
    && t < |s.tasks| == |s.jobs| && s.tasks[t].status.Running? && !s.tasks[t].returned
    && s.tasks[t].trace == trace && |trace| <= s.jobs[t].steps
  }

  /** The thread that finishes `c` stands at `fin`. */
  predicate InFinish(s: State, c: nat, fin: Fin) {
    c < |s.tasks| == |s.jobs| && s.tasks[c].returned && s.tasks[c].fin == fin && !fin.Unfinished?
  }

  /** The wait loop for task `c`, in the cascade that `upto` has started, stands at a task that is filling. */
  predicate Spins(s: State, c: nat, upto: nat)
    requires |s.tasks| == |s.jobs|
  {
    && c < |s.tasks| && s.tasks[c].fin.Walk? && s.tasks[c].fin.upto == upto
    && 0 <= s.tasks[c].fin.p < |s.tasks| && s.tasks[s.tasks[c].fin.p].status.Filling?
  }

  lemma StaysInBody(s: State, s': State, t: nat, trace: seq<int>)
    requires InBody(s, t, trace) && s.jobs <= s'.jobs && |s.tasks| <= |s'.tasks| == |s'.jobs| && MineAt(s, s', t)
    ensures InBody(s', t, trace) && s'.jobs[t] == s.jobs[t]
  {
  }

  lemma StaysInFinish(s: State, s': State, c: nat, fin: Fin)
    requires Inv(s) && InFinish(s, c, fin) && |s.tasks| <= |s'.tasks| == |s'.jobs| && MineAt(s, s', c)
    ensures InFinish(s', c, fin) && (Draining(s.tasks[c]) ==> s'.tasks[c].deps == s.tasks[c].deps)
  {
    assert TaskOk(s, c);
  }

  lemma StartStep(s: State, t: nat)
    requires Inv(s) && t < |s.tasks| && s.tasks[t].status.Ready?
    ensures Enabled(s, Start(t)) && Apply(s, Start(t)) == Put(s, t, s.tasks[t].(status := Running))
    ensures InBody(Apply(s, Start(t)), t, [])
  {
    assert TaskOk(s, t);
  }

  /** The results and the memory after one more access. */
  function Accessed(trace: seq<int>, mem: Memory, action: Action): (seq<int>, Memory) {
    match action
    case Load(a) => (trace + [Get(mem, a)], mem)
    case Store(a, v) => (trace + [0], mem[a := v])
    case Idle => (trace + [0], mem)
  }

  lemma ActStep(s: State, t: nat, trace: seq<int>)
    requires InBody(s, t, trace) && |trace| < s.jobs[t].steps
    ensures Enabled(s, Act(t))
    ensures var r := Accessed(trace, s.mem, s.jobs[t].act(trace));
            DoAct(s, t) == Put(s, t, s.tasks[t].(trace := r.0)).(mem := r.1) && InBody(DoAct(s, t), t, r.0)
  {
  }

  lemma ReturnStep(s: State, t: nat, trace: seq<int>)
    requires Inv(s) && InBody(s, t, trace) && |trace| == s.jobs[t].steps
    ensures Enabled(s, Return(t)) && s.tasks[t].nchildren >= 1
    ensures Apply(s, Return(t)) == Put(s, t, Signalled(s.tasks[t].(returned := true), t))
    ensures s.tasks[t].nchildren == 1 ==> InFinish(Apply(s, Return(t)), t, Snap(t))
  {
    assert ChildrenAt(s, t);
    SumNonNegative(|s.tasks|, ChildOf(s, t));
  }

  lemma SnapshotStep(s: State, c: nat, upto: nat)
    requires InFinish(s, c, Snap(upto))
    ensures Enabled(s, Snapshot(c))
    ensures Apply(s, Snapshot(c)) == Put(s, c, s.tasks[c].(fin := Walk(upto, |s.tasks| - 1, |s.tasks| - 1)))
  {
  }

  lemma WalkStep(s: State, c: nat, upto: nat, head: int, p: int)
    requires Inv(s) && InFinish(s, c, Walk(upto, head, p))
    ensures upto < |s.tasks| && NULL <= p < |s.tasks|
    ensures p == NULL || p == upto || LeftFilling(s, p) ==>
              Enabled(s, WalkOn(c)) && Apply(s, WalkOn(c)) == Put(s, c, Finishing.Walked(s, s.tasks[c]))
    ensures p != NULL && s.tasks[p].scape ==> 0 <= s.jobs[p].father < p
  {
    assert TaskOk(s, c);
    assert p != NULL ==> TaskOk(s, p);
  }

  /** What the decrement of the counter leaves, and the `post()` when it was 1. */
  function FreedItem(y: Item): Item {
    var y' := y.(ndependencies := y.ndependencies - 1);
    if y.ndependencies == 1 then y'.(status := Ready) else y'
  }

  lemma SharedFreed(y: Task, father: int)
    ensures Shared(Linking.Freed(y), father) == FreedItem(Shared(y, father))
  {
  }

  lemma ReleaseStep(s: State, c: nat, upto: nat, head: int, k: nat)
    requires Inv(s) && CascadeSafe(s) && InFinish(s, c, Drain(upto, head, k)) && k < |s.tasks[c].deps|
    ensures Enabled(s, Release(c)) && c != s.tasks[c].deps[k] < |s.tasks|
    ensures var w := s.tasks[c].deps[k];
            DoRelease(s, c) == Put(Put(s, w, Linking.Freed(s.tasks[w])), c, Linking.OneFurther(s.tasks[c]))
  {
    assert TaskOk(s, c);
    ReleaseTarget(s, c);
    Linking.ReleaseRecords(s, c, s.tasks[c].deps[k]);
  }

  lemma FreeStep(s: State, c: nat, upto: nat, head: int)
    requires c < |s.tasks| && InFinish(s, c, Drain(upto, head, |s.tasks[c].deps|))
    ensures Enabled(s, Free(c))
    ensures Apply(s, Free(c)) ==
            Put(s, c, s.tasks[c].(deps := [], status := Deallocatable, fin := Signal(upto)))
  {
  }

  lemma NotifyStep(s: State, c: nat, upto: nat)
    requires Inv(s) && InFinish(s, c, Signal(upto))
    ensures Enabled(s, Notify(c)) && NULL <= s.jobs[c].father < c
    ensures var f, gone := s.jobs[c].father, Put(s, c, Notified(s.tasks[c]));
            && DoNotify(s, c) == (if f == NULL then gone else Put(gone, f, Signalled(s.tasks[f], upto)))
            && (f != NULL && s.tasks[f].nchildren == 1 ==> InFinish(DoNotify(s, c), f, Snap(upto)))
  {
    assert TaskOk(s, c);
    if s.jobs[c].father != NULL {
      FatherCounts(s, c);
    }
  }

  // ----- over several accesses

  lemma {:induction false} TasksStay(before: seq<State>, run: seq<State>)
    requires IsGuardedRun(before) && IsGuardedRun(run) && before <= run
    ensures |Last(before).tasks| <= |Last(run).tasks| && Last(before).jobs <= Last(run).jobs
    decreases |run|
  {
    if |before| < |run| {
      var mid := run[..|run| - 1];
      GuardedIsRun(run);
      assert GuardedNext(run[|run| - 2], run[|run| - 2 + 1]);
      var s, step := LastStep(run);
      TasksStay(before, mid);
      GuardedRunKeeps(mid);
      GuardedRunKeeps(run);
      JobsGrow(s, step);
    }
  }

  lemma {:induction false} StaysDeallocatable(before: seq<State>, run: seq<State>, t: nat)
    requires IsGuardedRun(before) && IsGuardedRun(run) && before <= run
    requires t < |Last(before).tasks| && Last(before).tasks[t].status.Deallocatable?
    ensures t < |Last(run).tasks| && Last(run).tasks[t].status.Deallocatable?
    decreases |run|
  {
    if |before| < |run| {
      var mid := run[..|run| - 1];
      GuardedIsRun(run);
      var s, step := LastStep(run);
      StaysDeallocatable(before, mid, t);
      GuardedRunKeeps(mid);
      Moved(s, step, t);
    }
  }

  // ----- how far a cascade has come

  /** `a` is `t` or one of its ancestors. */
  predicate OnPath(jobs: seq<Job>, t: nat, a: nat)
    requires t < |jobs|
  {
    a == t || Descendant(jobs, t, a)
  }

  /** Of `t` and its ancestors, those newer than `rest` are finished. */
  predicate FinishedAbove(s: State, t: nat, rest: int)
    requires t < |s.tasks| == |s.jobs|
  {
    forall a: nat | a < |s.tasks| && rest < a && OnPath(s.jobs, t, a) :: s.tasks[a].status.Deallocatable?
  }

  lemma FinishedStays(before: seq<State>, run: seq<State>, t: nat, rest: int)
    requires IsGuardedRun(before) && IsGuardedRun(run) && before <= run
    requires |Last(before).tasks| == |Last(before).jobs| && |Last(run).tasks| == |Last(run).jobs|
    requires t < |Last(before).tasks| && FinishedAbove(Last(before), t, rest)
    ensures t < |Last(run).tasks| && FinishedAbove(Last(run), t, rest)
  {
    TasksStay(before, run);
    forall a: nat | a < |Last(run).tasks| && rest < a && OnPath(Last(run).jobs, t, a)
      ensures Last(run).tasks[a].status.Deallocatable? {
      DescendantGrows(Last(before).jobs, Last(run).jobs, t, a);
      if a != t {
        DescendantIsNewer(Last(run).jobs, t, a);
      }
      assert OnPath(Last(before).jobs, t, a);
      StaysDeallocatable(before, run, a);
    }
  }

  lemma {:induction false} OlderOnPath(jobs: seq<Job>, t: nat, c: nat, a: nat)
    requires t < |jobs| && c < |jobs| && OnPath(jobs, t, c) && Descendant(jobs, t, a) && a < c
    ensures Descendant(jobs, c, a)
    decreases t
  {
    if t != c {
      var f := jobs[t].father;
      if f == a {
        if f != c {
          DescendantIsNewer(jobs, f, c);
        }
      } else {
        OlderOnPath(jobs, f, c, a);
      }
    }
  }

  /** After `c`, its father is the next on the path. */
  lemma FinishedNext(s: State, t: nat, c: nat)
    requires Family(s) && t < |s.tasks| && c < |s.tasks| && OnPath(s.jobs, t, c)
    requires FinishedAbove(s, t, c) && s.tasks[c].status.Deallocatable?
    ensures FinishedAbove(s, t, s.jobs[c].father)
    ensures s.jobs[c].father != NULL ==> 0 <= s.jobs[c].father < c && OnPath(s.jobs, t, s.jobs[c].father)
  {
    var f := s.jobs[c].father;
    assert FatherOlder(s, c);
    if f != NULL {
      DescendantOfFather(s.jobs, t, c);
    }
    forall a: nat | a < |s.tasks| && f < a && OnPath(s.jobs, t, a) ensures s.tasks[a].status.Deallocatable? {
      if a < c {
        if c != t {
          DescendantIsNewer(s.jobs, t, c);
        }
        OlderOnPath(s.jobs, t, c, a);
        if f != a {
          DescendantIsNewer(s.jobs, f, a);
        }
      }
    }
  }
}
