/** `Observer::~Observer`: passes over the worklist, newest task first, until one pass meets no unfinished task of
    the scope. The steps of the passes interleave with all steps of the runtime. */
module Observer {
  import opened Protocol
  import opened Invariants
  import opened Safety
  import opened Runs
  import opened Guarantees
  import opened Shelter

  /** Where the destructor stands: about to load the list head, at node `p` of a pass, or at its end. */
  datatype Watch = Begin(fathers: set<int>) | Look(fathers: set<int>, p: int, must: bool) | Exited(fathers: set<int>)

  datatype Moment = Moment(s: State, w: Watch)

  /** What is observed: the task `father` (or no task), and the node before which the scope was opened. */
  datatype Scope = Scope(father: int, limit: int) {
    /** Without a father the pass goes to the end of the list. */
    function SafeEnd(): int { if father != NULL then limit else NULL }

    /** Spawned after the scope was opened, which without a father is anything. */
    predicate Begun(c: int) { father != NULL ==> limit < c }

    /** With a father, the limit is a node of a list of `n` nodes, or its end. */
    predicate Fits(n: nat) { father != NULL ==> NULL <= limit < n }
  }

  predicate CanObserve(m: Moment, scope: Scope) {
    |m.s.tasks| == |m.s.jobs| && (m.w.Look? ==> m.w.p == scope.SafeEnd() || 0 <= m.w.p < |m.s.tasks|)
  }

  /** One step of the destructor. */
  function Observe(m: Moment, scope: Scope): Moment
    requires CanObserve(m, scope)
  {
    match m.w
    case Begin(fathers) => m.(w := Look(fathers, |m.s.tasks| - 1, false))
    case Look(fathers, p, must) =>
      if p == scope.SafeEnd() then m.(w := if must then Begin(fathers) else Exited(fathers))
      else if m.s.jobs[p].father in fathers then
        m.(w := Look(fathers + {p}, p - 1, must || m.s.tasks[p].status.Live()))
      else m.(w := Look(fathers, p - 1, must))
    case Exited(_) => m
  }

  ghost predicate NextMoment(m: Moment, m': Moment, scope: Scope) {
    || (CanObserve(m, scope) && m' == Observe(m, scope))
    || exists step :: Enabled(m.s, step) && m' == m.(s := Apply(m.s, step))
  }

  /** A run up to the call of the destructor, and the moments since. */
  ghost predicate Observation(run: seq<State>, ms: seq<Moment>, scope: Scope) {
    && SafeRun(run) && |ms| > 0
    && ms[0] == Moment(Last(run), Begin({scope.father}))
    && scope.Fits(|Last(run).tasks|)
    && (forall i: nat | i + 1 < |ms| :: NextMoment(ms[i], ms[i + 1], scope))
    && (forall i: nat | i < |ms| :: CascadeSafe(ms[i].s))
  }

  // ----- what a pass has established

  predicate FinishedChild(s: State, father: int, c: nat)
    requires c < |s.tasks| == |s.jobs|
  {
    s.jobs[c].father == father ==> !s.tasks[c].status.Live()
  }

  /** Of the children of the father among the first `n` tasks, the pass has found those it has met finished. */
  predicate PassOk(m: Moment, scope: Scope, n: nat) {
    && n <= |m.s.tasks| == |m.s.jobs|
    && scope.Fits(|m.s.tasks|)
    && scope.father in m.w.fathers
    && match m.w
       case Begin(_) => true
       case Look(_, p, must) =>
         && scope.SafeEnd() <= p < |m.s.tasks|
         && (!must ==> forall c: nat | p < c < n :: FinishedChild(m.s, scope.father, c))
       case Exited(_) => forall c: nat | c < n && scope.Begun(c) :: FinishedChild(m.s, scope.father, c)
  }

  lemma ObserveKeeps(m: Moment, scope: Scope, n: nat)
    requires PassOk(m, scope, n) && CanObserve(m, scope)
    ensures PassOk(Observe(m, scope), scope, n)
  {
    var m' := Observe(m, scope);
    if m'.w.Look? && !m'.w.must {
      forall c: nat | m'.w.p < c < n ensures FinishedChild(m'.s, scope.father, c) {
        assert m.w.Look? && m.w.p < c ==> FinishedChild(m.s, scope.father, c);
      }
    }
  }

  lemma StepFinishes(s: State, step: Step, father: int, c: nat)
    requires Inv(s) && CascadeSafe(s) && Enabled(s, step) && c < |s.tasks| && FinishedChild(s, father, c)
    ensures |Apply(s, step).tasks| == |Apply(s, step).jobs| && c < |Apply(s, step).tasks|
    ensures FinishedChild(Apply(s, step), father, c)
  {
    JobsGrow(s, step);
    LiveBefore(s, step, c);
  }

  lemma StepKeepsPass(m: Moment, step: Step, scope: Scope, n: nat)
    requires PassOk(m, scope, n) && Inv(m.s) && CascadeSafe(m.s) && Enabled(m.s, step)
    ensures PassOk(m.(s := Apply(m.s, step)), scope, n)
  {
    var s' := Apply(m.s, step);
    JobsGrow(m.s, step);
    StepKeeps(m.s, step);
    forall c: nat | c < |m.s.tasks| && FinishedChild(m.s, scope.father, c) ensures FinishedChild(s', scope.father, c) {
      StepFinishes(m.s, step, scope.father, c);
    }
  }

  lemma NextKeepsPass(m: Moment, m': Moment, scope: Scope, n: nat)
    requires Inv(m.s) && CascadeSafe(m.s) && PassOk(m, scope, n) && NextMoment(m, m', scope)
    ensures Inv(m'.s) && PassOk(m', scope, n)
  {
    if CanObserve(m, scope) && m' == Observe(m, scope) {
      ObserveKeeps(m, scope, n);
    } else {
      var step :| Enabled(m.s, step) && m' == m.(s := Apply(m.s, step));
      StepKeepsPass(m, step, scope, n);
      StepKeeps(m.s, step);
    }
  }

  lemma {:induction false} ObservationKeeps(run: seq<State>, ms: seq<Moment>, scope: Scope)
    requires Observation(run, ms, scope)
    ensures Inv(ms[|ms| - 1].s) && PassOk(ms[|ms| - 1], scope, |Last(run).tasks|)
    decreases |ms|
  {
    if |ms| == 1 {
      SafeRunKeeps(run);
    } else {
      var before := ms[..|ms| - 1];
      ObservationKeeps(run, before, scope);
      var m := ms[|ms| - 2];
      assert before[|before| - 1] == m && CascadeSafe(ms[|ms| - 2].s);
      assert NextMoment(ms[|ms| - 2], ms[|ms| - 2 + 1], scope);
      NextKeepsPass(m, ms[|ms| - 1], scope, |Last(run).tasks|);
    }
  }

  // ----- at the exit

  /** `d` is a child `c` of the father spawned within the scope, or a descendant of that child. */
  predicate InScope(jobs: seq<Job>, scope: Scope, c: nat, d: nat)
    requires c < |jobs| && d < |jobs|
  {
    scope.Begun(c) && jobs[c].father == scope.father && (d == c || Descendant(jobs, d, c))
  }

  /** When the destructor's loop ends, every child of the father that is newer than the limit, or every root task when
      there is no father, is at least `Done` if it was spawned before the call. */
  lemma ObserverExit(run: seq<State>, ms: seq<Moment>, scope: Scope, c: nat)
    requires Observation(run, ms, scope) && ms[|ms| - 1].w.Exited? && c < |Last(run).tasks|
    ensures |Last(run).tasks| <= |ms[|ms| - 1].s.tasks| == |ms[|ms| - 1].s.jobs|
    ensures ms[|ms| - 1].s.jobs[c].father == scope.father && (scope.father != NULL ==> scope.limit < c) ==>
              !ms[|ms| - 1].s.tasks[c].status.Live()
  {
    ObservationKeeps(run, ms, scope);
    if scope.Begun(c) {
      assert FinishedChild(ms[|ms| - 1].s, scope.father, c);
    }
  }

  /** What these children have spawned, at whatever depth and however late, is then even `Deallocatable`. */
  lemma ObserverExitBelow(run: seq<State>, ms: seq<Moment>, scope: Scope, c: nat, d: nat)
    requires Observation(run, ms, scope) && ms[|ms| - 1].w.Exited?
    requires c < |Last(run).tasks| && d < |ms[|ms| - 1].s.tasks|
    ensures |Last(run).tasks| <= |ms[|ms| - 1].s.tasks| == |ms[|ms| - 1].s.jobs|
    ensures ms[|ms| - 1].s.jobs[c].father == scope.father && (scope.father != NULL ==> scope.limit < c) ==>
              (Descendant(ms[|ms| - 1].s.jobs, d, c) ==> ms[|ms| - 1].s.tasks[d].status.Deallocatable?)
  {
    ObservationKeeps(run, ms, scope);
    ObserverExit(run, ms, scope, c);
    if Descendant(ms[|ms| - 1].s.jobs, d, c) && !ms[|ms| - 1].s.tasks[c].status.Live() {
      FinishedSubtree(ms[|ms| - 1].s, d, c);
    }
  }

  /** The constructor: the scope begins at the head of the list. */
  function OpenScope(s: State, father: int): Scope { Scope(father, |s.tasks| - 1) }

  /** Whatever the father spawns between the opening of the scope and the call of the destructor is waited for. */
  lemma ScopeIsAwaited(run: seq<State>, ms: seq<Moment>, i: nat, father: int, c: nat)
    requires i < |run| && Observation(run, ms, OpenScope(run[i], father)) && ms[|ms| - 1].w.Exited?
    requires |run[i].tasks| <= c < |Last(run).tasks|
    ensures |Last(run).tasks| <= |ms[|ms| - 1].s.tasks| == |ms[|ms| - 1].s.jobs|
    ensures ms[|ms| - 1].s.jobs[c].father == father ==> !ms[|ms| - 1].s.tasks[c].status.Live()
  {
    ObserverExit(run, ms, OpenScope(run[i], father), c);
  }

  // ----- what one pass finds out

  predicate KnownFather(jobs: seq<Job>, scope: Scope, x: int) {
    x == scope.father || (0 <= x < |jobs| && exists c: nat | c < |jobs| :: InScope(jobs, scope, c, x))
  }

  /** The set of fathers holds the observed task and tasks of its scope. */
  predicate KnownFathers(jobs: seq<Job>, scope: Scope, fathers: set<int>) {
    scope.father in fathers && forall x | x in fathers :: KnownFather(jobs, scope, x)
  }

  /** A node on the critical path belongs to the scope, through a child that is not newer. */
  lemma OnCriticalPath(jobs: seq<Job>, scope: Scope, fathers: set<int>, p: nat) returns (c: nat)
    requires KnownFathers(jobs, scope, fathers) && p < |jobs| && jobs[p].father in fathers && scope.Begun(p)
    requires jobs[p].father < p
    ensures c <= p && InScope(jobs, scope, c, p)
  {
    var f := jobs[p].father;
    assert KnownFather(jobs, scope, f);
    if f == scope.father {
      c := p;
    } else {
      c :| c < |jobs| && InScope(jobs, scope, c, f);
      if f != c {
        DescendantIsNewer(jobs, f, c);
      }
    }
  }

  lemma OneMoreFather(jobs: seq<Job>, scope: Scope, fathers: set<int>, p: nat)
    requires KnownFathers(jobs, scope, fathers) && p < |jobs| && jobs[p].father in fathers && scope.Begun(p)
    requires jobs[p].father < p
    ensures KnownFathers(jobs, scope, fathers + {p})
  {
    var c := OnCriticalPath(jobs, scope, fathers, p);
    assert KnownFather(jobs, scope, p);
  }

  /** All children of the father from the end of the scope up to `p` have finished. */
  predicate ScopeFinished(s: State, scope: Scope, p: int)
    requires |s.tasks| == |s.jobs|
  {
    forall c: nat | scope.Begun(c) && c <= p && c < |s.tasks| :: FinishedChild(s, scope.father, c)
  }

  /** A live node on the critical path is, or comes from, a live child. */
  lemma LiveOnCriticalPath(s: State, scope: Scope, fathers: set<int>, p: nat)
    requires Inv(s) && KnownFathers(s.jobs, scope, fathers) && scope.Begun(p) && p < |s.tasks|
    requires s.jobs[p].father in fathers && s.tasks[p].status.Live()
    ensures !ScopeFinished(s, scope, p)
  {
    assert TaskOk(s, p);
    var c := OnCriticalPath(s.jobs, scope, fathers, p);
    if ScopeFinished(s, scope, p) {
      assert FinishedChild(s, scope.father, c);
      if c != p {
        FinishedSubtree(s, p, c);
      }
    }
  }

  /** Where the destructor stands after the rest of a pass over a state that does not change. */
  function AfterPass(s: State, scope: Scope, fathers: set<int>, p: int, must: bool): Watch
    requires |s.tasks| == |s.jobs| && NULL <= scope.SafeEnd() <= p < |s.tasks|
    decreases p - scope.SafeEnd()
  {
    var w := Observe(Moment(s, Look(fathers, p, must)), scope).w;
    if p == scope.SafeEnd() then w else AfterPass(s, scope, w.fathers, w.p, w.must)
  }

  lemma {:induction false} RestOfPass(s: State, scope: Scope, fathers: set<int>, p: int, must: bool)
    requires Inv(s) && KnownFathers(s.jobs, scope, fathers) && NULL <= scope.SafeEnd() <= p < |s.tasks|
    ensures AfterPass(s, scope, fathers, p, must).Exited? <==> !must && ScopeFinished(s, scope, p)
    decreases p - scope.SafeEnd()
  {
    if p > scope.SafeEnd() {
      var w := Observe(Moment(s, Look(fathers, p, must)), scope).w;
      assert TaskOk(s, p);
      if s.jobs[p].father in fathers {
        OneMoreFather(s.jobs, scope, fathers, p);
        if s.tasks[p].status.Live() {
          LiveOnCriticalPath(s, scope, fathers, p);
        }
      }
      RestOfPass(s, scope, w.fathers, w.p, w.must);
      assert ScopeFinished(s, scope, p) <==> ScopeFinished(s, scope, p - 1) && FinishedChild(s, scope.father, p);
    }
  }

  /** A pass over an unchanged state ends the loop exactly when every child of the father newer than the end of the
      scope has finished. */
  lemma PassExact(s: State, scope: Scope, fathers: set<int>)
    requires Inv(s) && KnownFathers(s.jobs, scope, fathers) && scope.Fits(|s.tasks|)
    ensures AfterPass(s, scope, fathers, |s.tasks| - 1, false).Exited? <==>
            forall c: nat | c < |s.tasks| && s.jobs[c].father == scope.father
                            && (scope.father != NULL ==> scope.limit < c) :: !s.tasks[c].status.Live()
  {
    RestOfPass(s, scope, fathers, |s.tasks| - 1, false);
    assert forall c: nat | c < |s.tasks| && scope.Begun(c) ::
        FinishedChild(s, scope.father, c) <==> (s.jobs[c].father == scope.father ==> !s.tasks[c].status.Live());
  }

  lemma {:induction false} RestFindsFathers(s: State, scope: Scope, fathers: set<int>, known: set<int>, p: int,
                                            must: bool, x: int)
    requires Family(s) && NULL <= scope.SafeEnd() <= p < |s.tasks|
    requires fathers <= known && forall y | y in known :: y in fathers || y > p
    ensures x in AfterPass(s, scope, known, p, must).fathers <==>
            x in known || (0 <= x <= p && scope.Begun(x) && s.jobs[x].father in fathers)
    decreases p - scope.SafeEnd()
  {
    if p > scope.SafeEnd() {
      var w := Observe(Moment(s, Look(known, p, must)), scope).w;
      assert FatherOlder(s, p);
      RestFindsFathers(s, scope, fathers, w.fathers, w.p, w.must, x);
    }
  }

  /** A pass adds exactly the tasks of the scope whose fathers it knew before: their children come to it in the next
      pass. */
  lemma PassFindsFathers(s: State, scope: Scope, fathers: set<int>, x: int)
    requires Family(s) && scope.Fits(|s.tasks|) && forall y | y in fathers :: y < |s.tasks|
    ensures x in AfterPass(s, scope, fathers, |s.tasks| - 1, false).fathers <==>
            x in fathers
            || (0 <= x < |s.tasks| && (scope.father != NULL ==> scope.limit < x) && s.jobs[x].father in fathers)
  {
    RestFindsFathers(s, scope, fathers, fathers, |s.tasks| - 1, false, x);
  }

  // ----- the loop does end

  lemma Extend(run: seq<State>, ms: seq<Moment>, scope: Scope) returns (ms': seq<Moment>)
    requires Observation(run, ms, scope) && CanObserve(ms[|ms| - 1], scope)
    ensures Observation(run, ms', scope) && ms'[|ms'| - 1] == Observe(ms[|ms| - 1], scope)
  {
    var m := Observe(ms[|ms| - 1], scope);
    ms' := ms + [m];
    forall i: nat | i + 1 < |ms'| ensures NextMoment(ms'[i], ms'[i + 1], scope) {
      if i + 1 < |ms| {
        assert NextMoment(ms[i], ms[i + 1], scope);
      }
    }
    forall i: nat | i < |ms'| ensures CascadeSafe(ms'[i].s) {
      assert CascadeSafe(ms[if i < |ms| then i else |ms| - 1].s);
    }
  }

  /** A pass that has got to node `p` without meeting an unfinished task of the scope. */
  ghost predicate Passing(m: Moment, s: State, scope: Scope, p: int) {
    m.s == s && m.w.Look? && m.w.p == p && !m.w.must && KnownFathers(s.jobs, scope, m.w.fathers)
  }

  lemma {:induction false} PassTo(run: seq<State>, scope: Scope, p: int) returns (ms: seq<Moment>)
    requires SafeRun(run) && |Last(run).tasks| == |Last(run).jobs|
    requires NULL <= scope.SafeEnd() <= p < |Last(run).tasks| && ScopeFinished(Last(run), scope, |Last(run).tasks| - 1)
    ensures Observation(run, ms, scope) && Passing(ms[|ms| - 1], Last(run), scope, p)
    decreases |Last(run).tasks| - p
  {
    var s := Last(run);
    SafeRunKeeps(run);
    if p == |s.tasks| - 1 {
      ms := [Moment(s, Begin({scope.father}))];
      assert CascadeSafe(run[|run| - 1]);
    } else {
      ms := PassTo(run, scope, p + 1);
      var fathers := ms[|ms| - 1].w.fathers;
      assert TaskOk(s, p + 1);
      if s.jobs[p + 1].father in fathers {
        OneMoreFather(s.jobs, scope, fathers, p + 1);
        if s.tasks[p + 1].status.Live() {
          LiveOnCriticalPath(s, scope, fathers, p + 1);
        }
      }
    }
    ms := Extend(run, ms, scope);
  }

  /** Once every child spawned within the scope has finished, one pass ends the destructor, whatever else is live. */
  lemma ObserverCanExit(run: seq<State>, scope: Scope) returns (ms: seq<Moment>)
    requires SafeRun(run) && |Last(run).tasks| == |Last(run).jobs|
    requires scope.Fits(|Last(run).tasks|) && ScopeFinished(Last(run), scope, |Last(run).tasks| - 1)
    ensures Observation(run, ms, scope) && ms[|ms| - 1].w.Exited? && ms[|ms| - 1].s == Last(run)
  {
    ms := PassTo(run, scope, scope.SafeEnd());
    ms := Extend(run, ms, scope);
  }

  lemma {:induction false} TasksGrow(run: seq<State>, i: nat)
    requires IsRun(run) && i < |run|
    ensures |run[i].tasks| <= |Last(run).tasks|
    decreases |run|
  {
    if i < |run| - 1 {
      var s, step := LastStep(run);
      TasksGrow(run[..|run| - 1], i);
      FamilyRun(run[..|run| - 1]);
      JobsGrow(s, step);
    }
  }

  /** What the father has spawned before the scope was opened is not waited for: once everything it has spawned since
      has finished, the destructor can end. */
  lemma ScopeCanEnd(run: seq<State>, i: nat, father: nat) returns (ms: seq<Moment>)
    requires SafeRun(run) && i < |run| && |Last(run).tasks| == |Last(run).jobs|
    requires forall c: nat | |run[i].tasks| <= c < |Last(run).tasks| && Last(run).jobs[c].father == father ::
               !Last(run).tasks[c].status.Live()
    ensures Observation(run, ms, OpenScope(run[i], father)) && ms[|ms| - 1].w.Exited? && ms[|ms| - 1].s == Last(run)
  {
    var scope := OpenScope(run[i], father);
    TasksGrow(run, i);
    forall c: nat | scope.Begun(c) && c < |Last(run).tasks| ensures FinishedChild(Last(run), father, c) {
    }
    ms := ObserverCanExit(run, scope);
  }

  // ----- descendants of children spawned before the scope

  /** `d` is at least `Done` whenever the destructor's loop ends. */
  ghost predicate Guaranteed(run: seq<State>, scope: Scope, d: nat) {
    forall ms: seq<Moment> | Observation(run, ms, scope) && ms[|ms| - 1].w.Exited? ::
      d < |ms[|ms| - 1].s.tasks| && !ms[|ms| - 1].s.tasks[d].status.Live()
  }

  /** Of the unfinished tasks below the father, the destructor guarantees exactly those that descend through a child
      newer than the end of the scope: when the others are all that is left, it ends without them. */
  lemma GuaranteedExactly(run: seq<State>, scope: Scope, c: nat, d: nat)
    requires SafeRun(run) && scope.Fits(|Last(run).tasks|) && |Last(run).tasks| == |Last(run).jobs|
    requires c < |Last(run).tasks| && d < |Last(run).tasks| && Last(run).tasks[d].status.Live()
    requires Last(run).jobs[c].father == scope.father && (d == c || Descendant(Last(run).jobs, d, c))
    requires forall e: nat | e < |Last(run).tasks| && e != c && scope.Begun(e) ::
               FinishedChild(Last(run), scope.father, e)
    ensures Guaranteed(run, scope, d) <==> (scope.father != NULL ==> scope.limit < c)
  {
    if scope.Begun(c) {
      forall ms: seq<Moment> | Observation(run, ms, scope) && ms[|ms| - 1].w.Exited?
        ensures d < |ms[|ms| - 1].s.tasks| && !ms[|ms| - 1].s.tasks[d].status.Live()
      {
        ObserverExitOf(run, ms, scope, c, d);
      }
    } else {
      var ms := ObserverCanExit(run, scope);
      assert ms[|ms| - 1].s.tasks[d].status.Live();
    }
  }

  lemma {:induction false} JobsStay(run: seq<State>, ms: seq<Moment>, scope: Scope)
    requires Observation(run, ms, scope)
    ensures Last(run).jobs <= ms[|ms| - 1].s.jobs
    decreases |ms|
  {
    if |ms| > 1 {
      var before := ms[..|ms| - 1];
      JobsStay(run, before, scope);
      assert before[|before| - 1] == ms[|ms| - 2];
      assert NextMoment(ms[|ms| - 2], ms[|ms| - 2 + 1], scope);
      var m, m' := ms[|ms| - 2], ms[|ms| - 1];
      if !(CanObserve(m, scope) && m' == Observe(m, scope)) {
        var step :| Enabled(m.s, step) && m' == m.(s := Apply(m.s, step));
        JobsGrow(m.s, step);
      }
    }
  }

  lemma ObserverExitOf(run: seq<State>, ms: seq<Moment>, scope: Scope, c: nat, d: nat)
    requires Observation(run, ms, scope) && ms[|ms| - 1].w.Exited?
    requires c < |Last(run).tasks| == |Last(run).jobs| && d < |Last(run).tasks| && InScope(Last(run).jobs, scope, c, d)
    ensures d < |ms[|ms| - 1].s.tasks| && !ms[|ms| - 1].s.tasks[d].status.Live()
  {
    ObservationKeeps(run, ms, scope);
    JobsStay(run, ms, scope);
    DescendantGrows(Last(run).jobs, ms[|ms| - 1].s.jobs, d, c);
    ObserverExit(run, ms, scope, c);
    ObserverExitBelow(run, ms, scope, c, d);
  }
}
