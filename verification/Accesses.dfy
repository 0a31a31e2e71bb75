/** What the accesses of bodies see: a load gives the value of the last store to its place, by whatever task, and before
    any store the value the place had at the start. */
module Accesses {
  import opened Regions
  import opened Protocol
  import opened Runs

  /** The body of `t` makes this access. */
  ghost predicate Makes(s: State, s': State, t: nat, action: Action) {
    Enabled(s, Act(t)) && s' == Apply(s, Act(t)) && s.jobs[t].act(s.tasks[t].trace) == action
  }

  /** Some body stores to the place. */
  ghost predicate StoresTo(s: State, s': State, a: Place) {
    exists t: nat, v: int :: Makes(s, s', t, Store(a, v))
  }

  lemma OtherStepsKeepMemory(s: State, step: Step)
    requires Enabled(s, step) && !step.Act?
    ensures Apply(s, step).mem == s.mem
  {
  }

  /** Without a store to the place, its contents stay. */
  lemma PlaceIsKept(s: State, s': State, a: Place)
    requires Next(s, s') && !StoresTo(s, s', a)
    ensures (a in s'.mem <==> a in s.mem) && (a in s.mem ==> s'.mem[a] == s.mem[a])
  {
    var step :| Enabled(s, step) && s' == Apply(s, step);
    if step.Act? {
      var action := s.jobs[step.t].act(s.tasks[step.t].trace);
      assert Makes(s, s', step.t, action);
    } else {
      OtherStepsKeepMemory(s, step);
    }
  }

  /** No body stores to the place from state `i` to state `k`. */
  ghost predicate NoStore(run: seq<State>, i: nat, k: nat, a: Place) {
    forall m: nat | i <= m < k && m + 1 < |run| :: !StoresTo(run[m], run[m + 1], a)
  }

  lemma {:induction false} UntilNextStore(run: seq<State>, i: nat, k: nat, a: Place)
    requires IsRun(run) && i <= k < |run| && NoStore(run, i, k, a)
    ensures (a in run[k].mem <==> a in run[i].mem) && (a in run[i].mem ==> run[k].mem[a] == run[i].mem[a])
    decreases k
  {
    if i < k {
      UntilNextStore(run, i, k - 1, a);
      assert Next(run[k - 1], run[k - 1 + 1]) && !StoresTo(run[k - 1], run[k - 1 + 1], a);
      PlaceIsKept(run[k - 1], run[k], a);
    }
  }

  /** A load after a store to the same place, with no other store to it in between, gives the stored value. */
  lemma LoadSeesLastStore(run: seq<State>, i: nat, j: nat, t: nat, u: nat, a: Place, v: int)
    requires IsRun(run) && i < j && j + 1 < |run| && NoStore(run, i + 1, j, a)
    requires Makes(run[i], run[i + 1], t, Store(a, v)) && Makes(run[j], run[j + 1], u, Load(a))
    ensures u < |run[j].tasks| == |run[j + 1].tasks|
    ensures run[j + 1].tasks[u].trace == run[j].tasks[u].trace + [v]
  {
    UntilNextStore(run, i + 1, j, a);
  }

  /** A load from a place that no body has stored to gives what the place held at the start. */
  lemma LoadSeesInitial(run: seq<State>, j: nat, u: nat, a: Place)
    requires IsRun(run) && j + 1 < |run| && NoStore(run, 0, j, a) && Makes(run[j], run[j + 1], u, Load(a))
    ensures u < |run[j].tasks| == |run[j + 1].tasks|
    ensures run[j + 1].tasks[u].trace == run[j].tasks[u].trace + [if a in run[0].mem then run[0].mem[a] else 0]
  {
    UntilNextStore(run, 0, j, a);
  }
}
