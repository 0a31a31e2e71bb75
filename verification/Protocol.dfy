/** The runtime as a state machine. Tasks are numbered in the order in which they enter the worklist, so the
    `next` of task `t` is `t - 1`; every shared read or write of `insert_in_worklist`, of the body and of
    `finish_execution` is one step, and the steps of all threads interleave freely. */
module Protocol {
  import opened Regions
  import opened ArgScan
  import opened Containment

  const NULL: int := -1

  /** One access of a task body to memory. */
  datatype Action = Load(from: Place) | Store(to: Place, value: int) | Idle

  /** What is spawned: argument regions, the spawning task, and a deterministic body that performs `steps`
      accesses, each chosen from the results of the accesses before it. */
  datatype Job = Job(args: seq<Region>, father: int, steps: nat, act: seq<int> -> Action)

  datatype Status = Filling | Waiting | Ready | Running | Done | Deallocatable {
    /** Below `Done`. */
    predicate Live() { !Done? && !Deallocatable? }

    /** `post` has been called. */
    predicate Posted() { !Filling? && !Waiting? }

    predicate Started() { Posted() && !Ready? }

    function Rank(): nat {
      match this
      case Filling => 0
      case Waiting => 1
      case Ready => 2
      case Running => 3
      case Done => 4
      case Deallocatable => 5
    }
  }

  /** Where the spawning thread stands in its scan of the worklist, at node `at`: about to look at the node;
      about to compare arguments, having seen it live; about to link, having found a conflict; about to test
      whether it is still filling; about to leave, having read `ndependencies`; or out of `insert_in_worklist`. */
  datatype Fill = Visit | Examine | Linking(k: nat, l: nat) | Test | Exit(zero: bool) | Left

  /** Where the finishing thread stands: not yet finishing; `Done` but no list head loaded; walking the list;
      draining `deps`; about to signal the father; finished. `upto` is the task whose end started the cascade. */
  datatype Fin = Unfinished | Snap(upto: nat) | Walk(upto: nat, head: int, p: int) | Drain(upto: nat, head: int, k: nat)
               | Signal(upto: nat) | Gone

  datatype Task = Task(
    status: Status,
    pending: bool,        // OptFlags::PendingFills
    scape: bool,          // OptFlags::FatherScape
    fill: Fill,
    at: int,              // p of the scan
    ancestor: int,
    argv: seq<Region>,
    ndeps: int,
    nchildren: int,
    deps: seq<nat>,
    trace: seq<int>,      // results of the accesses done by the body
    returned: bool,       // the body has ended
    fin: Fin,
    posts: nat)           // how often post() has been called

  type Memory = map<Place, int>

  datatype State = State(jobs: seq<Job>, tasks: seq<Task>, mem: Memory)

  function Get(m: Memory, a: Place): int { if a in m then m[a] else 0 }

  /** The arguments left after linking: the one found is dropped once a writer covers it. */
  function Prune(ps: seq<Region>, k: nat, ws: seq<Region>, l: nat): seq<Region>
    requires k < |ps| && l < |ws|
  {
    if ps[k].wr && Covered(ws[l], ps, k) then ws[..l] + ws[l + 1..] else ws
  }

  // ----- steps

  datatype Step =
    | Push(job: Job) | Read(t: nat) | Match(t: nat) | Link(t: nat) | TestFill(t: nat) | Decide(t: nat) | Leave(t: nat)
    | Start(t: nat) | Act(t: nat) | Return(t: nat)
    | Snapshot(t: nat) | WalkOn(t: nat) | Release(t: nat) | Free(t: nat) | Notify(t: nat)

  predicate InScan(s: State, t: nat, fill: Fill) {
    t < |s.tasks| == |s.jobs| && s.tasks[t].fill == fill && 0 <= s.tasks[t].at < |s.tasks|
  }

  predicate Enabled(s: State, step: Step) {
    && |s.tasks| == |s.jobs|
    && (step.Push? || (step.t < |s.tasks| && TaskEnabled(s, step, step.t)))
    && (step.Push? ==> CanPush(s, step.job))
  }

  /** A running body spawns, or a thread outside every task does; the arguments are a list in order. */
  predicate CanPush(s: State, job: Job) {
    && Arguments(job.args)
    && (job.father == NULL
        || (0 <= job.father < |s.tasks| && s.tasks[job.father].status.Running? && !s.tasks[job.father].returned))
  }

  predicate TaskEnabled(s: State, step: Step, t: nat)
    requires !step.Push? && t < |s.tasks| == |s.jobs|
  {
    var x := s.tasks[t];
    match step
    case Read(_) => InScan(s, t, Visit) && !x.scape
    case Match(_) => InScan(s, t, Examine)
    case Link(_) => x.fill.Linking? && InScan(s, t, x.fill) && x.fill.k < |s.jobs[x.at].args| && x.fill.l < |x.argv|
    case TestFill(_) => InScan(s, t, Test)
    case Decide(_) => x.fill.Visit? && (x.at == NULL || x.scape)
    case Leave(_) => x.fill.Exit?
    case Start(_) => x.status.Ready?
    case Act(_) => x.status.Running? && !x.returned && |x.trace| < s.jobs[t].steps
    case Return(_) => x.status.Running? && !x.returned && |x.trace| == s.jobs[t].steps
    case Snapshot(_) => x.fin.Snap?
    case WalkOn(_) => x.fin.Walk? && (x.fin.p == NULL || x.fin.p == x.fin.upto
                                      || (0 <= x.fin.p < |s.tasks| && !s.tasks[x.fin.p].status.Filling?))
    case Release(_) => x.fin.Drain? && x.fin.k < |x.deps| && x.deps[x.fin.k] < |s.tasks|
    case Free(_) => x.fin.Drain? && x.fin.k == |x.deps|
    case Notify(_) => x.fin.Signal? && (s.jobs[t].father == NULL || 0 <= s.jobs[t].father < |s.tasks|)
  }

  function Apply(s: State, step: Step): State
    requires Enabled(s, step)
  {
    match step
    case Push(job) => DoPush(s, job)
    case Read(t) => DoRead(s, t)
    case Match(t) => DoMatch(s, t)
    case Link(t) => DoLink(s, t)
    case TestFill(t) => DoTest(s, t)
    case Decide(t) => Put(s, t, s.tasks[t].(fill := Exit(s.tasks[t].ndeps == 0)))
    case Leave(t) => Put(s, t, LeaveFilling(s.tasks[t]))
    case Start(t) => Put(s, t, s.tasks[t].(status := Running))
    case Act(t) => DoAct(s, t)
    case Return(t) => Put(s, t, Signalled(s.tasks[t].(returned := true), t))
    case Snapshot(t) => Put(s, t, s.tasks[t].(fin := Walk(s.tasks[t].fin.upto, |s.tasks| - 1, |s.tasks| - 1)))
    case WalkOn(t) => Put(s, t, s.tasks[t].(fin := WalkNext(s, s.tasks[t].fin)))
    case Release(t) => DoRelease(s, t)
    case Free(t) => Put(s, t, s.tasks[t].(deps := [], status := Deallocatable, fin := Signal(s.tasks[t].fin.upto)))
    case Notify(t) => DoNotify(s, t)
  }

  function Put(s: State, t: nat, x: Task): State
    requires t < |s.tasks|
  {
    s.(tasks := s.tasks[t := x])
  }

  function Post(x: Task): Task { x.(status := Ready, posts := x.posts + 1) }

  /** The end of `insert_in_worklist`, whatever the status. */
  function LeaveFilling(x: Task): Task
    requires x.fill.Exit?
  {
    if x.fill.zero then Post(x.(fill := Left)) else x.(fill := Left, status := Waiting)
  }

  function NewTask(job: Job, at: int): Task {
    Task(Filling, false, false, Visit, at, job.father, job.args, 0, 1, [], [], false, Unfinished, 0)
  }

  function DoPush(s: State, job: Job): State
    requires CanPush(s, job)
  {
    var counted := if job.father == NULL then s else Put(s, job.father, WithChild(s.tasks[job.father]));
    Append(counted, job)
  }

  function WithChild(x: Task): Task { x.(nchildren := x.nchildren + 1) }

  function Append(s: State, job: Job): State {
    s.(jobs := s.jobs + [job], tasks := s.tasks + [NewTask(job, |s.tasks| - 1)])
  }

  function DoRead(s: State, t: nat): State
    requires InScan(s, t, Visit)
  {
    var x := s.tasks[t];
    if x.at == x.ancestor then
      var a := s.jobs[x.at].father;
      if 0 <= a < |s.jobs| && ContainedFrom(s.jobs[t].args, s.jobs[a].args, 0, 0)
      then Put(s, t, x.(ancestor := a, scape := true))
      else Put(s, t, x.(ancestor := a, at := x.at - 1))
    else if s.tasks[x.at].status.Live() then Put(s, t, x.(fill := Examine))
    else Put(s, t, x.(at := x.at - 1))
  }

  function DoMatch(s: State, t: nat): State
    requires InScan(s, t, Examine)
  {
    var x := s.tasks[t];
    match Scan(s.jobs[x.at].args, x.argv)
    case None => Put(s, t, x.(fill := Test))
    case Some(hit) => Put(s, t, x.(fill := Linking(hit.0, hit.1), ndeps := x.ndeps + 1))
  }

  function DoLink(s: State, t: nat): State
    requires t < |s.tasks| && s.tasks[t].fill.Linking? && InScan(s, t, s.tasks[t].fill)
    requires s.tasks[t].fill.k < |s.jobs[s.tasks[t].at].args| && s.tasks[t].fill.l < |s.tasks[t].argv|
  {
    var x := s.tasks[t];
    var p := s.tasks[x.at];
    var linked := Put(s, x.at, p.(deps := p.deps + [t]));
    Put(linked, t, linked.tasks[t].(fill := Test, argv := Prune(s.jobs[x.at].args, x.fill.k, x.argv, x.fill.l)))
  }

  function DoTest(s: State, t: nat): State
    requires InScan(s, t, Test)
  {
    var x := s.tasks[t];
    Put(s, t, x.(fill := Visit, at := x.at - 1, pending := x.pending || s.tasks[x.at].status.Filling?))
  }

  function DoAct(s: State, t: nat): State
    requires t < |s.tasks| == |s.jobs|
  {
    var x := s.tasks[t];
    match s.jobs[t].act(x.trace)
    case Load(a) => Put(s, t, x.(trace := x.trace + [Get(s.mem, a)]))
    case Store(a, v) => Put(s, t, x.(trace := x.trace + [0])).(mem := s.mem[a := v])
    case Idle => Put(s, t, x.(trace := x.trace + [0]))
  }

  /** `nchildren.fetch_sub(1)`, and the start of finishing when it was 1. */
  function Signalled(x: Task, upto: nat): Task {
    var y := x.(nchildren := x.nchildren - 1);
    if x.nchildren == 1 then y.(status := Done, fin := Snap(upto)) else y
  }

  /** One turn of the loop that waits for tasks that are filling. */
  function WalkNext(s: State, w: Fin): Fin
    requires w.Walk? && |s.tasks| == |s.jobs|
    requires w.p == NULL || w.p == w.upto || 0 <= w.p < |s.tasks|
  {
    if w.p == NULL || w.p == w.upto then Drain(w.upto, w.head, 0)
    else
      var q := s.tasks[w.p];
      if q.pending then w.(p := w.p - 1)
      else if !q.scape then Drain(w.upto, w.head, 0)
      else if q.status.Live() then w.(p := s.jobs[w.p].father - 1)
      else w.(p := w.p - 1)
  }

  function DoRelease(s: State, t: nat): State
    requires t < |s.tasks| && s.tasks[t].fin.Drain? && s.tasks[t].fin.k < |s.tasks[t].deps|
    requires s.tasks[t].deps[s.tasks[t].fin.k] < |s.tasks|
  {
    var x := s.tasks[t];
    var w := x.deps[x.fin.k];
    var y := s.tasks[w].(ndeps := s.tasks[w].ndeps - 1);
    var released := Put(s, w, if s.tasks[w].ndeps == 1 then Post(y) else y);
    Put(released, t, released.tasks[t].(fin := x.fin.(k := x.fin.k + 1)))
  }

  function DoNotify(s: State, t: nat): State
    requires t < |s.tasks| == |s.jobs| && s.tasks[t].fin.Signal?
    requires s.jobs[t].father == NULL || 0 <= s.jobs[t].father < |s.tasks|
  {
    var f := s.jobs[t].father;
    var gone := Put(s, t, s.tasks[t].(fin := Gone));
    if f == NULL then gone else Put(gone, f, Signalled(gone.tasks[f], s.tasks[t].fin.upto))
  }

  ghost predicate Next(s: State, s': State) {
    exists step :: Enabled(s, step) && s' == Apply(s, step)
  }
}
