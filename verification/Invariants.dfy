/** What every step of the runtime keeps. Each invariant quantifies over one named fact per task, so that
    proofs name the tasks they need. */
module Invariants {
  import opened Regions
  import opened ArgScan
  import opened Protocol
  import opened Sums

  predicate FinOk(x: Task, n: nat) {
    match x.fin
    case Snap(upto) => upto < n
    case Walk(upto, head, p) => upto < n && NULL <= p <= head < n
    case Drain(upto, head, k) => upto < n && head < n && k <= |x.deps|
    case Signal(upto) => upto < n && x.deps == []
    case Gone => x.deps == []
    case Unfinished => true
  }

  /** Status, counter and history of one task agree. */
  predicate StatusOk(x: Task, job: Job) {
    && (x.status.Live() <==> x.fin.Unfinished?)
    && (x.status.Done? <==> x.fin.Snap? || x.fin.Walk? || x.fin.Drain?)
    && x.posts == (if x.status.Posted() then 1 else 0)
    && (x.status.Posted() ==> x.ndeps == 0)
    && (x.status.Waiting? ==> x.ndeps > 0)
    && (x.fill.Exit? ==> (x.fill.zero <==> x.ndeps == 0))
    && |x.trace| <= job.steps
    && (!x.status.Started() ==> x.trace == [])
    && (x.returned ==> |x.trace| == job.steps && x.status.Started())
    && (!x.fin.Unfinished? ==> x.returned)
  }

  predicate HasStarted(s: State, p: int) {
    0 <= p < |s.tasks| && s.tasks[p].status.Started()
  }

  predicate HasReturned(s: State, p: int) {
    0 <= p < |s.tasks| && s.tasks[p].returned
  }

  /** The scan of task `t` is within bounds and its ancestors have started. */
  predicate ScanOk(s: State, t: nat)
    requires t < |s.tasks| == |s.jobs|
  {
    var x := s.tasks[t];
    var f := s.jobs[t].father;
    && NULL <= f < t && (f != NULL ==> HasStarted(s, f))
    && NULL <= x.ancestor <= f && (x.ancestor != NULL ==> HasStarted(s, x.ancestor))
    && NULL <= x.at < t
    && (x.scape ==> 0 <= x.at <= f)
    && (x.fill.Examine? || x.fill.Linking? || x.fill.Test? ==> x.at != NULL && !x.scape)
    && (x.fill.Exit? || x.fill.Left? ==> x.at == NULL || x.scape)
    && (x.status.Filling? <==> !x.fill.Left?)
    && (x.fill.Linking? ==>
          && x.fill.k < |s.jobs[x.at].args| && x.fill.l < |x.argv|
          && Hit(s.jobs[x.at].args, x.fill.k, x.argv[x.fill.l]))
    && Within(x.argv, s.jobs[t].args) && Arguments(x.argv) && Arguments(s.jobs[t].args)
  }

  predicate DepsNewer(x: Task, t: nat, n: nat) {
    forall k | 0 <= k < |x.deps| :: t < x.deps[k] < n
  }

  /** The task whose end started the cascade. */
  function Upto(f: Fin): int {
    match f
    case Snap(upto) => upto
    case Walk(upto, _, _) => upto
    case Drain(upto, _, _) => upto
    case Signal(upto) => upto
    case _ => NULL
  }

  predicate TaskOk(s: State, t: nat)
    requires t < |s.tasks| == |s.jobs|
  {
    && FinOk(s.tasks[t], |s.tasks|)
    && StatusOk(s.tasks[t], s.jobs[t])
    && ScanOk(s, t)
    && DepsNewer(s.tasks[t], t, |s.tasks|)
    && (Upto(s.tasks[t].fin) != NULL ==> HasReturned(s, Upto(s.tasks[t].fin)))
  }

  predicate Shape(s: State) {
    |s.tasks| == |s.jobs| && forall t: nat | t < |s.tasks| :: TaskOk(s, t)
  }

  predicate LeftFilling(s: State, j: int) {
    0 <= j < |s.tasks| ==> !s.tasks[j].status.Filling?
  }

  /** The scan of `t` has either seen every node it passed out of `Filling`, or raised PendingFills. */
  predicate FlagTells(s: State, t: nat)
    requires t < |s.tasks|
  {
    s.tasks[t].pending || forall j: int | s.tasks[t].at < j < t :: LeftFilling(s, j)
  }

  predicate FlagsTell(s: State) {
    forall t: nat | t < |s.tasks| :: FlagTells(s, t)
  }

  predicate WalkedTo(s: State, low: int, head: int) {
    forall j: int | low < j <= head :: LeftFilling(s, j)
  }

  /** The wait loop of `c` has waited for every node it passed or skipped. */
  predicate WalkWaits(s: State, c: nat)
    requires c < |s.tasks|
  {
    match s.tasks[c].fin
    case Walk(_, head, p) => WalkedTo(s, p, head)
    case Drain(upto, head, _) => WalkedTo(s, upto, head)
    case _ => true
  }

  predicate WalksWait(s: State) {
    forall c: nat | c < |s.tasks| :: WalkWaits(s, c)
  }

  /** The spawner of `x` has seen its scan node live and may link to it or read its arguments. */
  predicate Engaged(x: Task) {
    x.status.Filling? && (x.fill.Examine? || x.fill.Linking?)
  }

  /** A finishing task still has the engaged task `t` ahead of its walk. */
  predicate Ahead(f: Fin, t: nat) {
    f.Unfinished? || f.Snap? || (f.Walk? && t <= f.p)
  }

  predicate Awaited(s: State, t: nat)
    requires t < |s.tasks|
  {
    var x := s.tasks[t];
    Engaged(x) && 0 <= x.at < |s.tasks| ==> Ahead(s.tasks[x.at].fin, t)
  }

  predicate EngagedAwaited(s: State) {
    forall t: nat | t < |s.tasks| :: Awaited(s, t)
  }

  /** Dependants of a walking or draining task were listed when it loaded the head. */
  predicate DepsListed(x: Task) {
    x.fin.Walk? || x.fin.Drain? ==> forall k | 0 <= k < |x.deps| :: x.deps[k] <= x.fin.head
  }

  predicate ListedAt(s: State, p: nat)
    requires p < |s.tasks|
  {
    DepsListed(s.tasks[p])
  }

  predicate AllDepsListed(s: State) {
    forall p: nat | p < |s.tasks| :: ListedAt(s, p)
  }

  // ----- counting live edges

  function Undrained(x: Task): seq<nat> {
    match x.fin
    case Drain(_, _, k) => if k <= |x.deps| then x.deps[k..] else []
    case _ => x.deps
  }

  function Links(x: Task, t: nat): nat { multiset(Undrained(x))[t] }

  function LinksTo(s: State, t: nat): nat -> int {
    (p: nat) => if p < |s.tasks| then Links(s.tasks[p], t) else 0
  }

  /** How many live edges leave `t`. */
  function Edges(s: State, t: nat): int { Sum(|s.tasks|, LinksTo(s, t)) }

  /** One more is about to be linked. */
  function BeingLinked(x: Task): int { if x.fill.Linking? then 1 else 0 }

  predicate CounterAt(s: State, t: nat)
    requires t < |s.tasks|
  {
    s.tasks[t].ndeps == Edges(s, t) + BeingLinked(s.tasks[t])
  }

  predicate CounterOk(s: State) {
    forall t: nat | t < |s.tasks| :: CounterAt(s, t)
  }

  predicate Orderly(s: State) {
    Shape(s) && FlagsTell(s) && WalksWait(s) && EngagedAwaited(s) && AllDepsListed(s)
  }

  predicate Core(s: State) {
    Orderly(s) && CounterOk(s)
  }

  // ----- counting children

  function ChildOf(s: State, f: nat): nat -> int {
    (c: nat) => if c < |s.tasks| == |s.jobs| && s.jobs[c].father == f && !s.tasks[c].fin.Gone? then 1 else 0
  }

  /** How many children of `f` have not yet signalled. */
  function Unsignalled(s: State, f: nat): int { Sum(|s.tasks|, ChildOf(s, f)) }

  /** `nchildren` counts the body and the children that have not signalled, and is 0 once the task is finishing. */
  predicate ChildrenAt(s: State, f: nat)
    requires f < |s.tasks|
  {
    var x := s.tasks[f];
    && x.nchildren == (if x.returned then 0 else 1) + Unsignalled(s, f)
    && (x.nchildren == 0 <==> !x.fin.Unfinished?)
  }

  predicate ChildrenOk(s: State) {
    forall f: nat | f < |s.tasks| :: ChildrenAt(s, f)
  }

  predicate FatherOlder(s: State, t: nat)
    requires t < |s.jobs|
  {
    NULL <= s.jobs[t].father < t
  }

  /** What fathers and children keep whatever happens to the dependencies. */
  predicate Family(s: State) {
    |s.tasks| == |s.jobs| && (forall t: nat | t < |s.tasks| :: FatherOlder(s, t)) && ChildrenOk(s)
  }

  predicate Inv(s: State) { Core(s) && ChildrenOk(s) }

  /** `t` has seen `c` live, or depends on it. */
  predicate Relies(s: State, t: nat, c: nat)
    requires t < |s.tasks| && c < |s.tasks|
  {
    (Engaged(s.tasks[t]) && s.tasks[t].at == c) || t in s.tasks[c].deps
  }

  /** The wait loop of a cascade does not look at the part of the list between a finishing ancestor `c` and the
      task whose end started the cascade. A task `t` there does no harm if it has left `Filling` or does not
      rely on `c`. */
  predicate SafeFrom(s: State, c: nat, t: nat)
    requires c < |s.tasks| && t < |s.tasks|
  {
    var f := s.tasks[c].fin;
    (f.Walk? || f.Drain?) && c < t < f.upto && Relies(s, t, c) ==> LeftFilling(s, t)
  }

  predicate CascadeSafe(s: State) {
    forall c: nat, t: nat | c < |s.tasks| && t < |s.tasks| :: SafeFrom(s, c, t)
  }
}
