/** The code of one thread with its own variables: `insert_in_worklist`, `TaskPool::Task::run` and
    `finish_execution` work on shared fields that other threads change between any two of its accesses. Each access
    is proved to be the step of the protocol that it stands for. */
module Threads {
  import opened Regions
  import opened ArgScan
  import opened Containment
  import opened ArgList
  import opened ArgWalk
  import opened Protocol
  import opened Invariants
  import opened Guarantees
  import opened Safety
  import opened Shelter
  import opened Runs
  import opened ThreadSteps

  /** A new list of nodes with the given regions. */
  method NewList(rs: seq<Region>) returns (head: ArgInfo?, ghost nodes: seq<ArgInfo>)
    ensures ArgList.Linked(head, nodes) && Views(nodes) == rs && fresh(nodes)
  {
    head, nodes := null, [];
    var i := |rs|;
    while i > 0
      invariant 0 <= i <= |rs| && fresh(nodes)
      invariant ArgList.Linked(head, nodes) && Views(nodes) == rs[i..]
    {
      i := i - 1;
      head, nodes := InFront(rs[i], head, nodes);
      assert rs[i..] == [rs[i]] + rs[i + 1..];
    }
  }

  method InFront(r: Region, next: ArgInfo?, ghost rest: seq<ArgInfo>) returns (head: ArgInfo, ghost nodes: seq<ArgInfo>)
    requires ArgList.Linked(next, rest)
    ensures ArgList.Linked(head, nodes) && Views(nodes) == [r] + Views(rest) && nodes == [head] + rest && fresh(head)
  {
    head := new ArgInfo(r.addr, r.size, r.wr, r.dims);
    head.next := next;
    nodes := [head] + rest;
    forall i: nat | i < |nodes| ensures LinkedAt(nodes, i) {
      assert i > 0 ==> LinkedAt(rest, i - 1);
    }
  }

  class Runtime {
    var items: seq<Item>      // the worklist, oldest task first
    var args: seq<ArgInfo?>       // the argument list of each task
    var mem: Memory
    ghost var nodes: seq<seq<ArgInfo>>
    var system: State             // where all threads stand, for the moves of the others
    const others: nat -> seq<Step>  // what other threads try to do, turn by turn
    var turn: nat
    ghost var run: seq<State>

    /** What the thread sees is the last state of a run of the protocol. */
    ghost predicate Valid()
      reads this, Footprint(nodes)
    {
      && IsGuardedRun(run) && Last(run) == system
      && Shows(items, system) && mem == system.mem && Lists(args, nodes, system)
    }

    constructor (mem: Memory, others: nat -> seq<Step>)
      ensures Valid() && items == [] && this.mem == mem
    {
      items, args, nodes, turn := [], [], [], 0;
      this.mem := mem;
      this.others := others;
      system := State([], [], mem);
      run := [State([], [], mem)];
    }

    /** Changes to the runtime leave argument lists alone. */
    lemma NoNode(nodes: seq<seq<ArgInfo>>)
      ensures forall n: ArgInfo | n in Footprint(nodes) :: n as object != this
    {
    }

    /** Neither do changes to the array. */
    lemma NoArray(argv: array<ArgInfo?>, nodes: seq<seq<ArgInfo>>)
      ensures argv as object != this && forall n: ArgInfo | n in Footprint(nodes) :: n as object != argv
    {
    }

    lemma NoneOf(ws: seq<ArgInfo>)
      ensures forall n: ArgInfo | n in ws :: n as object != this
    {
    }

    /** Accounts for an access that has been made: the shared fields are as `step` leaves them. */
    method Did(step: Step)
      requires IsGuardedRun(run) && Last(run) == system && Enabled(system, step)
      requires step.Push? ==> MaySpawn(system, step.job.father)
      requires Shows(items, Apply(system, step)) && mem == Apply(system, step).mem
      requires Lists(args, nodes, Apply(system, step))
      modifies this`system, this`run
      ensures Valid() && system == Apply(old(system), step) && run == old(run) + [system]
    {
      NoNode(nodes);
      GuardedGrows(run, step, run + [Apply(system, step)]);
      system := Apply(system, step);
      run := run + [system];
    }

    /** Accounts for an access that is no spawn. */
    method Done(step: Step)
      requires IsGuardedRun(run) && Last(run) == system && Enabled(system, step) && !step.Push?
      requires Shows(items, Apply(system, step)) && mem == Apply(system, step).mem && Lists(args, nodes, system)
      modifies this`system, this`run
      ensures Valid() && system == Apply(old(system), step) && run == old(run) + [system]
    {
      NoNode(nodes);
      GuardedRunKeeps(run);
      ListsStay(args, nodes, system, step);
      Did(step);
    }

    /** Another thread makes an access. */
    method OtherMoves(step: Step, t: nat)
      requires Valid() && Enabled(system, step) && OfOthers(step, t) && t < |system.tasks|
      requires step.Push? ==> MaySpawn(system, step.job.father)
      modifies this
      ensures Valid() && run == old(run) + [system] && |old(system).tasks| <= |system.tasks|
      ensures old(system).jobs <= system.jobs && MineAt(old(system), system, t)
      ensures old(nodes) <= nodes && turn == old(turn)
    {
      NoNode(nodes);
      GuardedRunKeeps(run);
      OthersKeep(system, step, t);
      JobsGrow(system, step);
      var s' := Apply(system, step);
      items, mem := AllShared(s'), s'.mem;
      if step.Push? {
        ghost var list;
        var head;
        head, list := NewList(step.job.args);
        ListsGrow(args, nodes, system, step.job, head, list);
        NoNode(nodes + [list]);
        args, nodes := args + [head], nodes + [list];
        Did(step);
      } else {
        Done(step);
      }
    }

    /** Between two accesses of the thread of `t`, the others do what they can. */
    method OthersRun(t: nat)
      requires Valid() && t < |system.tasks|
      modifies this
      ensures Valid() && old(run) <= run && |old(system).tasks| <= |system.tasks| == |system.jobs|
      ensures old(system).jobs <= system.jobs && MineAt(old(system), system, t) && old(nodes) <= nodes
      ensures turn == old(turn) + 1
    {
      NoNode(nodes);
      var steps := others(turn);
      turn := turn + 1;
      var i := 0;
      while i < |steps|
        invariant Valid() && old(run) <= run && |old(system).tasks| <= |system.tasks|
        invariant old(system).jobs <= system.jobs && MineAt(old(system), system, t) && old(nodes) <= nodes
        invariant turn == old(turn) + 1
      {
        if OfOthers(steps[i], t) && Enabled(system, steps[i]) {
          if steps[i].Push? ==> MaySpawn(system, steps[i].job.father) {
            ghost var s := system;
            OtherMoves(steps[i], t);
            MineStill(old(system), s, system, t);
          }
        }
        i := i + 1;
      }
      GuardedRunKeeps(run);
    }

    // ----- insert_in_worklist

    /** The constructor and the push: counts the task in its father and enters it in the worklist. */
    method Enter(job: Job, list: ArgInfo?, ghost listed: seq<ArgInfo>) returns (t: nat)
      requires Valid() && CanPush(system, job) && MaySpawn(system, job.father)
      requires ArgList.Linked(list, listed) && Views(listed) == job.args
      modifies this
      ensures Valid() && run == old(run) + [system] && t == |old(system).tasks| && t < |system.tasks| == |system.jobs|
      ensures system == Apply(old(system), Step.Push(job))
      ensures nodes == old(nodes) + [listed] && args == old(args) + [list]
    {
      GuardedRunKeeps(run);
      ListsGrow(args, nodes, system, job, list, listed);
      NoNode(nodes + [listed]);
      ShowsPush(items, system, job);
      JobsGrow(system, Step.Push(job));
      ghost var was := items;
      if job.father != NULL {
        items := items[job.father := items[job.father].(nchildren := items[job.father].nchildren + 1)];
      }
      t := |items|;
      items := items + [Item(Filling, false, false, job.father, 0, 1, [])];
      assert items == WithChildCounted(was, job.father) + [NewItem(job.father)];
      args, nodes := args + [list], nodes + [listed];
      Did(Step.Push(job));
    }

    /** Accounts for an access of the scan of `t`, then lets the others run. */
    method Scanned(step: Step, t: nat, ghost fill: Fill, ghost p: int, ghost ancestor: int, ghost vs: seq<Region>)
      requires IsGuardedRun(run) && Last(run) == system && Enabled(system, step) && !step.Push?
      requires Shows(items, Apply(system, step)) && mem == Apply(system, step).mem && Lists(args, nodes, system)
      requires Stands(Apply(system, step), t, fill, p, ancestor, vs)
      modifies this
      ensures Valid() && old(run) < run && old(nodes) <= nodes && old(system).jobs <= system.jobs
      ensures Stands(system, t, fill, p, ancestor, vs)
    {
      JobsGrow(system, step);
      Done(step);
      ghost var s := system;
      OthersRun(t);
      StandsStill(s, system, t, fill, p, ancestor, vs);
    }

    /** `is_contained` for the arguments of `t` and those of `a`. */
    method ContainedIn(t: nat, a: nat) returns (contained: bool)
      requires Valid() && t < |system.tasks| == |system.jobs| && a < |system.tasks|
      requires !system.tasks[t].status.Deallocatable? && !system.tasks[a].status.Deallocatable?
      ensures contained <==> ContainedFrom(system.jobs[t].args, system.jobs[a].args, 0, 0)
    {
      assert ListAt(args, nodes, system, t) && ListAt(args, nodes, system, a);
      contained := IsContained(args[t], nodes[t], args[a], nodes[a]);
    }

    /** Raises the flag that ends the scan. */
    method Escape(t: nat, p: nat, ghost ancestor: int, ghost vs: seq<Region>)
      requires Valid() && Stands(system, t, Visit, p, p, vs) && Enabled(system, Read(t))
      requires DoRead(system, t) == Put(system, t, system.tasks[t].(ancestor := ancestor, scape := true))
      modifies this
      ensures Valid() && old(run) < run && old(nodes) <= nodes && old(system).jobs <= system.jobs && ScanOver(system, t)
    {
      NoNode(nodes);
      assert ShowsAt(items, system, t);
      ShowsPut(items, system, t, system.tasks[t].(ancestor := ancestor, scape := true));
      items := items[t := items[t].(scape := true)];
      Done(Read(t));
      ghost var s := system;
      OthersRun(t);
      StaysThere(s, system, t);
    }

    /** At an ancestor: ends the scan if the father of the ancestor contains all arguments. */
    method MeetAncestor(t: nat, p: nat, ghost vs: seq<Region>) returns (ancestor: int, contained: bool)
      requires Valid() && Stands(system, t, Visit, p, p, vs)
      modifies this
      ensures Valid() && old(run) < run && old(nodes) <= nodes && old(system).jobs <= system.jobs
      ensures if contained then ScanOver(system, t) else Stands(system, t, Visit, p - 1, ancestor, vs)
    {
      GuardedRunKeeps(run);
      AncestorLives(system, t, p);
      assert ShowsAt(items, system, p) && ShowsAt(items, system, t);
      NoNode(nodes);
      ancestor := items[p].father;
      contained := false;
      if ancestor != NULL {
        contained := ContainedIn(t, ancestor);
      }
      ghost var x := system.tasks[t];
      AncestorStep(system, t, p, vs, contained);
      if contained {
        Escape(t, p, ancestor, vs);
      } else {
        ShowsPrivate(items, system, t, x.(ancestor := ancestor, at := p - 1));
        Scanned(Read(t), t, Visit, p - 1, ancestor, vs);
      }
    }

    /** Looks at an older task. */
    method LookAt(t: nat, p: nat, ghost ancestor: int, ghost vs: seq<Region>) returns (status: Status)
      requires Valid() && Stands(system, t, Visit, p, ancestor, vs) && p != ancestor
      modifies this
      ensures Valid() && old(run) < run && old(nodes) <= nodes && old(system).jobs <= system.jobs
      ensures if status.Live() then Stands(system, t, Examine, p, ancestor, vs)
              else Stands(system, t, Visit, p - 1, ancestor, vs)
    {
      GuardedRunKeeps(run);
      assert ShowsAt(items, system, p);
      status := items[p].status;
      ReadStep(system, t, p, ancestor, vs);
      ghost var live, x := status.Live(), system.tasks[t];
      ShowsPrivate(items, system, t, if live then x.(fill := Examine) else x.(at := p - 1));
      Scanned(Read(t), t, if live then Examine else Visit, if live then p else p - 1, ancestor, vs);
    }

    /** Adds the task to the dependants of `p`, for the conflict of `argP` with argument `argWi`, which is dropped once
        a writer covers it. */
    method LinkTo(t: nat, p: nat, argP: ArgInfo, argWi: nat, argv: array<ArgInfo?>, nargs: nat, ghost ancestor: int,
                  ghost ps: seq<ArgInfo>, ghost k: nat, ghost ws: seq<ArgInfo>, ghost vs: seq<Region>)
      returns (nargs': nat, ghost ws': seq<ArgInfo>, ghost vs': seq<Region>)
      requires Valid() && Stands(system, t, Examine, p, ancestor, vs)
      requires Scan(system.jobs[p].args, vs) == Some((k, argWi))
      requires CursorAt(argP, ps, k) && k < |ps| && Views(ps) == system.jobs[p].args
      requires Holds(argv, ws) && Views(ws) == vs && nargs == |ws| && argWi < nargs
      modifies this, argv
      ensures Valid() && old(run) < run && old(nodes) <= nodes && old(system).jobs <= system.jobs
      ensures Stands(system, t, Test, p, ancestor, vs')
      ensures Holds(argv, ws') && Views(ws') == vs' && nargs' == |ws'|
    {
      ghost var rs := system.jobs[p].args;
      NoneOf(ws + ps);
      Count(t, p, ancestor, k, argWi, vs);
      Append(t, p, ancestor, rs, k, argWi, vs);
      NoArray(argv, nodes);
      nargs', ws', vs' := DropCovered(argP, argWi, argv, nargs, ps, rs, k, ws, vs);
    }

    /** Counts the dependency that has been found. */
    method Count(t: nat, p: nat, ghost ancestor: int, ghost k: nat, ghost l: nat, ghost vs: seq<Region>)
      requires Valid() && Stands(system, t, Examine, p, ancestor, vs) && Scan(system.jobs[p].args, vs) == Some((k, l))
      modifies this
      ensures Valid() && old(run) < run && old(nodes) <= nodes && old(system).jobs <= system.jobs
      ensures Stands(system, t, Fill.Linking(k, l), p, ancestor, vs)
    {
      GuardedRunKeeps(run);
      assert ShowsAt(items, system, t);
      NoNode(nodes);
      MatchStep(system, t, p, ancestor, vs);
      ShowsPut(items, system, t, Matched(system.tasks[t], Some((k, l))));
      items := items[t := items[t].(ndependencies := items[t].ndependencies + 1)];
      Scanned(Match(t), t, Fill.Linking(k, l), p, ancestor, vs);
    }

    /** Drops argument `i` from the array when the writer `argP` covers it. */
    method DropCovered(argP: ArgInfo, i: nat, argv: array<ArgInfo?>, nargs: nat, ghost ps: seq<ArgInfo>,
                       ghost rs: seq<Region>, ghost k: nat, ghost ws: seq<ArgInfo>, ghost vs: seq<Region>)
      returns (nargs': nat, ghost ws': seq<ArgInfo>, ghost vs': seq<Region>)
      requires Holds(argv, ws) && Views(ws) == vs && nargs == |ws| && i < nargs
      requires CursorAt(argP, ps, k) && k < |ps| && Views(ps) == rs && Hit(rs, k, vs[i])
      modifies argv
      ensures Holds(argv, ws') && Views(ws') == vs' && nargs' == |ws'| && vs' == Prune(rs, k, vs, i)
    {
      nargs', ws', vs' := nargs, ws, vs;
      if argP.wr {
        var argW := argv[i];
        var covered;
        if argW.IsArray() {
          covered := FindsContainer(argW, argP, ps, k);
        } else {
          covered := Contains(argP.View(), argW.View());
        }
        if covered {
          DropArg(argv, i, nargs, ws);
          nargs', ws', vs' := nargs - 1, ws[..i] + ws[i + 1..], vs[..i] + vs[i + 1..];
        }
      }
    }

    /** Adds the task to the dependants of `p`. */
    method Append(t: nat, p: nat, ghost ancestor: int, ghost rs: seq<Region>, ghost k: nat, ghost l: nat,
                  ghost vs: seq<Region>)
      requires Valid() && Stands(system, t, Fill.Linking(k, l), p, ancestor, vs)
      requires k < |rs| && rs == system.jobs[p].args && l < |vs|
      modifies this
      ensures Valid() && old(run) < run && old(nodes) <= nodes && old(system).jobs <= system.jobs
      ensures Stands(system, t, Test, p, ancestor, Prune(rs, k, vs, l))
    {
      GuardedRunKeeps(run);
      NoNode(nodes);
      assert ShowsAt(items, system, p);
      LinkStep(system, t, k, l, p, ancestor, vs);
      ghost var mid := Put(system, p, Linking.WithDep(system.tasks[p], t));
      ShowsPut(items, system, p, Linking.WithDep(system.tasks[p], t));
      items := items[p := items[p].(deps := items[p].deps + [t])];
      ShowsPrivate(items, mid, t, Linking.Linked(system.tasks[t], Prune(rs, k, vs, l)));
      Scanned(Link(t), t, Test, p, ancestor, Prune(rs, k, vs, l));
    }

    /** Raises the flag when the older task is still filling. */
    method SeeFilling(t: nat, p: nat, ghost ancestor: int, ghost vs: seq<Region>)
      requires Valid() && Stands(system, t, Test, p, ancestor, vs)
      modifies this
      ensures Valid() && old(run) < run && old(nodes) <= nodes && old(system).jobs <= system.jobs
      ensures Stands(system, t, Visit, p - 1, ancestor, vs)
    {
      GuardedRunKeeps(run);
      NoNode(nodes);
      assert ShowsAt(items, system, p) && ShowsAt(items, system, t);
      TestStep(system, t, p, ancestor, vs);
      ghost var x := system.tasks[t];
      ShowsPut(items, system, t, x.(fill := Visit, at := p - 1, pending := x.pending || items[p].status.Filling?));
      if items[p].status.Filling? {
        items := items[t := items[t].(pending := true)];
      } else {
        assert items[t := items[t]] == items;
      }
      Scanned(TestFill(t), t, Visit, p - 1, ancestor, vs);
    }

    /** Compares with an older task that is not `Done`, and links to it if they conflict. */
    method Compare(t: nat, p: nat, argv: array<ArgInfo?>, nargs: nat, ghost ancestor: int, ghost ws: seq<ArgInfo>,
                   ghost vs: seq<Region>)
      returns (nargs': nat, ghost ws': seq<ArgInfo>, ghost vs': seq<Region>)
      requires Valid() && Stands(system, t, Examine, p, ancestor, vs)
      requires Holds(argv, ws) && Views(ws) == vs && nargs == |ws|
      modifies this, argv
      ensures Valid() && old(run) < run && old(nodes) <= nodes && old(system).jobs <= system.jobs
      ensures Stands(system, t, Visit, p - 1, ancestor, vs')
      ensures Holds(argv, ws') && Views(ws') == vs' && nargs' == |ws'|
    {
      nargs', ws', vs' := nargs, ws, vs;
      GuardedRunKeeps(run);
      MatchStep(system, t, p, ancestor, vs);
      assert ListAt(args, nodes, system, p);
      NoNode(nodes);
      NoneOf(ws);
      var argP, argWi := ScanArgs(args[p], nodes[p], argv, ws);
      if argP != null {
        ghost var k := Scan(system.jobs[p].args, vs).value.0;
        nargs', ws', vs' := LinkTo(t, p, argP, argWi, argv, nargs, ancestor, nodes[p], k, ws, vs);
        NoneOf(ws');
      } else {
        ShowsPrivate(items, system, t, Matched(system.tasks[t], None));
        Scanned(Match(t), t, Test, p, ancestor, vs);
      }
      SeeFilling(t, p, ancestor, vs');
    }

    /** The body of the scan loop. */
    method ScanNode(t: nat, p: nat, ancestor: int, argv: array<ArgInfo?>, nargs: nat, ghost ws: seq<ArgInfo>,
                    ghost vs: seq<Region>)
      returns (contained: bool, ancestor': int, nargs': nat, ghost ws': seq<ArgInfo>, ghost vs': seq<Region>)
      requires Valid() && Stands(system, t, Visit, p, ancestor, vs)
      requires Holds(argv, ws) && Views(ws) == vs && nargs == |ws|
      modifies this, argv
      ensures Valid() && old(run) < run && old(system).jobs <= system.jobs
      ensures if contained then ScanOver(system, t) else Stands(system, t, Visit, p - 1, ancestor', vs')
      ensures Holds(argv, ws') && Views(ws') == vs' && nargs' == |ws'|
    {
      NoneOf(ws);
      contained, ancestor', nargs', ws', vs' := false, ancestor, nargs, ws, vs;
      if p == ancestor {
        ancestor', contained := MeetAncestor(t, p, vs);
      } else {
        var status := LookAt(t, p, ancestor, vs);
        if status.Live() {
          nargs', ws', vs' := Compare(t, p, argv, nargs, ancestor, ws, vs);
        }
      }
    }

    /** The end of the insertion: posts the task, or leaves it waiting. */
    method LeaveFilling(t: nat)
      requires Valid() && ScanOver(system, t)
      modifies this
      ensures Valid() && old(run) < run && old(system).jobs <= system.jobs && t < |items| == |system.jobs|
      ensures items[t].status == if items[t].ndependencies == 0 then Ready else Waiting
    {
      GuardedRunKeeps(run);
      NoNode(nodes);
      assert ShowsAt(items, system, t);
      var zero := items[t].ndependencies == 0;
      DecideStep(system, t);
      ShowsPrivate(items, system, t, system.tasks[t].(fill := Exit(zero)));
      Done(Decide(t));
      ghost var s := system;
      OthersRun(t);
      StaysThere(s, system, t);
      Post(t, zero);
    }

    method Post(t: nat, zero: bool)
      requires Valid() && Leaving(system, t, zero)
      modifies this
      ensures Valid() && old(run) < run && old(system).jobs <= system.jobs && t < |items| == |system.jobs|
      ensures items[t].status == if items[t].ndependencies == 0 then Ready else Waiting
    {
      GuardedRunKeeps(run);
      NoNode(nodes);
      assert ShowsAt(items, system, t) && TaskOk(system, t);
      ShowsPut(items, system, t, Protocol.LeaveFilling(system.tasks[t]));
      if zero {
        items := items[t := items[t].(status := Ready)];
      } else {
        items := items[t := items[t].(status := Waiting)];
      }
      Done(Leave(t));
    }

    /** Enters the task, then lets the others run. */
    method Begin(job: Job, list: ArgInfo?, ghost listed: seq<ArgInfo>) returns (t: nat)
      requires Valid() && CanPush(system, job) && MaySpawn(system, job.father)
      requires ArgList.Linked(list, listed) && Views(listed) == job.args
      modifies this
      ensures Valid() && old(run) < run && t == |old(items)| && t < |system.jobs| && system.jobs[t] == job
      ensures Stands(system, t, Visit, t - 1, job.father, job.args)
    {
      GuardedRunKeeps(run);
      BeginsScan(system, job);
      t := Enter(job, list, listed);
      ghost var s := system;
      OthersRun(t);
      StandsStill(s, system, t, Visit, t - 1, job.father, job.args);
    }

    /** `insert_in_worklist`, for a task whose argument count is the length of its list: whatever other threads do
        meanwhile, the new task is entered, scanned to the end of the list or to an ancestor that contains it, and
        posted exactly when it has no dependencies. */
    method InsertInWorklist(job: Job, list: ArgInfo?, nargs: nat, ghost listed: seq<ArgInfo>) returns (t: nat)
      requires Valid() && CanPush(system, job) && MaySpawn(system, job.father)
      requires ArgList.Linked(list, listed) && Views(listed) == job.args && nargs == |listed|
      modifies this
      ensures Valid() && old(run) < run && t == |old(items)| && t < |items| == |system.jobs| && system.jobs[t] == job
      ensures items[t].status == if items[t].ndependencies == 0 then Ready else Waiting
    {
      var argv := FillArgv(list, nargs, listed);
      NoneOf(listed);
      t := Begin(job, list, listed);
      var p, ancestor, left, contained := t - 1, job.father, nargs, false;
      ghost var ws, vs := listed, job.args;
      while p != NULL && !contained
        invariant Valid() && old(run) < run && t < |system.jobs| && system.jobs[t] == job
        invariant if contained then ScanOver(system, t) else Stands(system, t, Visit, p, ancestor, vs)
        invariant Holds(argv, ws) && Views(ws) == vs && left == |ws| && fresh(argv)
        decreases p, !contained
      {
        contained, ancestor, left, ws, vs := ScanNode(t, p, ancestor, argv, left, ws, vs);
        if !contained {
          p := p - 1;
        }
      }
      if !contained {
        EndsAtTheEnd(system, t, ancestor, vs);
      }
      LeaveFilling(t);
    }

    // ----- TaskPool::Task::run and finish_execution

    /** Accounts for an access at the end of task `c`, then lets the others run. */
    method Finished(step: Step, c: nat, ghost fin: Fin)
      requires IsGuardedRun(run) && Last(run) == system && Enabled(system, step) && !step.Push?
      requires Shows(items, Apply(system, step)) && mem == Apply(system, step).mem && Lists(args, nodes, system)
      requires InFinish(Apply(system, step), c, fin)
      modifies this
      ensures Valid() && old(run) < run && InFinish(system, c, fin) && turn == old(turn) + 1
      ensures c < |Apply(old(system), step).tasks|
      ensures Draining(Apply(old(system), step).tasks[c]) ==>
                system.tasks[c].deps == Apply(old(system), step).tasks[c].deps
    {
      Done(step);
      ghost var s := system;
      OthersRun(c);
      GuardedRunKeeps(old(run) + [s]);
      StaysInFinish(s, system, c, fin);
    }

    /** Lets the others run while task `c` waits. */
    method Spin(c: nat, ghost fin: Fin)
      requires Valid() && InFinish(system, c, fin)
      modifies this
      ensures Valid() && old(run) <= run && InFinish(system, c, fin) && turn == old(turn) + 1
    {
      GuardedRunKeeps(run);
      ghost var s := system;
      OthersRun(c);
      StaysInFinish(s, system, c, fin);
    }

    /** The wait loop of `finish_execution` for task `c`. Looks again at most `patience` times at tasks that are still
        filling; tells whether the loop has ended. */
    method WaitForFillers(c: nat, upto: nat, patience: nat) returns (ended: bool, ghost head: int)
      requires Valid() && InFinish(system, c, Snap(upto))
      modifies this
      ensures Valid() && old(run) < run
      ensures if ended then InFinish(system, c, Drain(upto, head, 0)) else Spins(system, c, upto)
      ensures turn >= old(turn) && (!ended ==> turn >= old(turn) + patience)
    {
      NoNode(nodes);
      SnapshotStep(system, c, upto);
      var p := |items| - 1;
      head := p;
      ShowsPrivate(items, system, c, system.tasks[c].(fin := Walk(upto, head, p)));
      Finished(Snapshot(c), c, Walk(upto, head, p));
      var looks, over := patience, false;
      while !over
        invariant Valid() && old(run) < run && looks >= 0 && p >= NULL && looks <= patience
        invariant turn >= old(turn) + patience - looks
        invariant InFinish(system, c, if over then Drain(upto, head, 0) else Walk(upto, head, p))
        decreases looks + p, !over
      {
        GuardedRunKeeps(run);
        WalkStep(system, c, upto, head, p);
        if p != NULL && p != upto && items[p].status.Filling? {
          if looks == 0 {
            assert ShowsAt(items, system, p);
            return false, head;
          }
          looks := looks - 1;
          Spin(c, Walk(upto, head, p));
        } else {
          p, over := WalkTo(c, upto, p, head);
        }
      }
      ended := true;
    }

    /** One turn of the wait loop at a task that is out of `Filling`, or the end of the loop. */
    method WalkTo(c: nat, upto: nat, p: int, ghost head: int) returns (p': int, over: bool)
      requires Valid() && InFinish(system, c, Walk(upto, head, p)) && NULL <= p < |items|
      requires p == NULL || p == upto || !items[p].status.Filling?
      modifies this
      ensures Valid() && old(run) < run && NULL <= p' <= p && (!over ==> p' < p) && turn == old(turn) + 1
      ensures InFinish(system, c, if over then Drain(upto, head, 0) else Walk(upto, head, p'))
    {
      GuardedRunKeeps(run);
      NoNode(nodes);
      assert p != NULL ==> ShowsAt(items, system, p);
      WalkStep(system, c, upto, head, p);
      p', over := p, false;
      if p == NULL || p == upto {
        over := true;
      } else if !items[p].pending {
        if items[p].scape {
          if items[p].status.Live() {
            p' := items[p].father;
          }
        } else {
          over := true;
        }
      }
      if !over {
        p' := p' - 1;
      }
      ShowsPrivate(items, system, c, Finishing.Walked(system, system.tasks[c]));
      Finished(WalkOn(c), c, if over then Drain(upto, head, 0) else Walk(upto, head, p'));
    }

    /** Releases the dependants of task `c`. */
    method ReleaseAll(c: nat, upto: nat, ghost head: int)
      requires Valid() && InFinish(system, c, Drain(upto, head, 0))
      modifies this
      ensures Valid() && old(run) <= run && c < |system.tasks|
      ensures InFinish(system, c, Drain(upto, head, |system.tasks[c].deps|))
    {
      assert ShowsAt(items, system, c);
      var deps, k := items[c].deps, 0;
      while k < |deps|
        invariant Valid() && old(run) <= run && 0 <= k <= |deps|
        invariant InFinish(system, c, Drain(upto, head, k)) && system.tasks[c].deps == deps
      {
        ReleaseOne(c, deps[k], upto, head, k);
        k := k + 1;
      }
    }

    /** Takes one off the counter of `w`, and posts it at zero. */
    method Decrement(w: nat)
      requires w < |items|
      modifies this`items
      ensures items == old(items)[w := FreedItem(old(items[w]))]
    {
      var last := items[w].ndependencies == 1;
      items := items[w := items[w].(ndependencies := items[w].ndependencies - 1)];
      if last {
        items := items[w := items[w].(status := Ready)];
      }
    }

    method ReleaseOne(c: nat, w: nat, upto: nat, ghost head: int, ghost k: nat)
      requires Valid() && InFinish(system, c, Drain(upto, head, k)) && k < |system.tasks[c].deps|
      requires w == system.tasks[c].deps[k]
      modifies this
      ensures Valid() && old(run) < run && InFinish(system, c, Drain(upto, head, k + 1))
      ensures system.tasks[c].deps == old(system).tasks[c].deps
    {
      GuardedRunKeeps(run);
      NoNode(nodes);
      ReleaseStep(system, c, upto, head, k);
      assert ShowsAt(items, system, w);
      ShowsPut(items, system, w, Linking.Freed(system.tasks[w]));
      SharedFreed(system.tasks[w], system.jobs[w].father);
      Decrement(w);
      ShowsPrivate(items, Put(system, w, Linking.Freed(system.tasks[w])), c, Linking.OneFurther(system.tasks[c]));
      Finished(Release(c), c, Drain(upto, head, k + 1));
    }

    /** Frees the lists of task `c`. */
    method FreeLists(c: nat, upto: nat, ghost head: int)
      requires Valid() && c < |system.tasks| && InFinish(system, c, Drain(upto, head, |system.tasks[c].deps|))
      modifies this
      ensures Valid() && old(run) < run && InFinish(system, c, Signal(upto))
    {
      GuardedRunKeeps(run);
      NoNode(nodes);
      FreeStep(system, c, upto, head);
      ListsFreed(args, nodes, system, c);
      assert ShowsAt(items, system, c);
      ghost var x := system.tasks[c].(deps := [], status := Deallocatable, fin := Signal(upto));
      ghost var shown := items[c := Shared(x, system.jobs[c].father)];
      ShowsPut(items, system, c, x);
      items := items[c := items[c].(deps := [])];
      args := args[c := null];
      items := items[c := items[c].(status := Deallocatable)];
      assert items == shown;
      Did(Free(c));
      Spin(c, Signal(upto));
    }

    /** Signals the father of task `c`; tells whether the father is to be finished next. */
    method SignalFather(c: nat, upto: nat) returns (f: int, goOn: bool)
      requires Valid() && InFinish(system, c, Signal(upto))
      modifies this
      ensures Valid() && old(run) < run && f < c && c < |items| == |system.jobs| && items[c].status.Deallocatable?
      ensures f == system.jobs[c].father && (goOn ==> f >= 0 && InFinish(system, f, Snap(upto)))
      ensures f != NULL && !goOn ==> 0 <= f && items[f].nchildren > 0
    {
      GuardedRunKeeps(run);
      assert ShowsAt(items, system, c) && TaskOk(system, c);
      NotifyStep(system, c, upto);
      f, goOn := items[c].father, false;
      if f != NULL {
        goOn := SignalTo(c, f, upto);
      } else {
        NoNode(nodes);
        ShowsPrivate(items, system, c, Spawning.Notified(system.tasks[c]));
        Done(Notify(c));
      }
    }

    method SignalTo(c: nat, f: nat, upto: nat) returns (last: bool)
      requires Valid() && InFinish(system, c, Signal(upto)) && system.jobs[c].father == f
      modifies this
      ensures Valid() && old(run) < run && f < c && c < |items| == |system.jobs| && items[c] == old(items[c])
      ensures system.jobs == old(system).jobs
      ensures if last then InFinish(system, f, Snap(upto)) else items[f].nchildren > 0
    {
      GuardedRunKeeps(run);
      NoNode(nodes);
      NotifyStep(system, c, upto);
      Spawning.FatherCounts(system, c);
      assert ShowsAt(items, system, f);
      ghost var gone := Put(system, c, Spawning.Notified(system.tasks[c]));
      ghost var shown := items[f := Shared(Signalled(system.tasks[f], upto), system.jobs[f].father)];
      ShowsPrivate(items, system, c, Spawning.Notified(system.tasks[c]));
      ShowsPut(items, gone, f, Signalled(system.tasks[f], upto));
      last := items[f].nchildren == 1;
      items := items[f := items[f].(nchildren := items[f].nchildren - 1)];
      if last {
        items := items[f := items[f].(status := Status.Done)];
      }
      assert items == shown;
      Done(Notify(c));
    }

    /** The body of `t` returns: takes it off the count of children, and begins to finish the task at zero. */
    method EndBody(t: nat, ghost trace: seq<int>) returns (last: bool)
      requires Valid() && InBody(system, t, trace) && |trace| == system.jobs[t].steps
      modifies this
      ensures Valid() && old(run) < run && t < |items|
      ensures if last then InFinish(system, t, Snap(t)) else items[t].nchildren > 0
    {
      GuardedRunKeeps(run);
      NoNode(nodes);
      assert ShowsAt(items, system, t) && ChildrenAt(system, t) && TaskOk(system, t);
      ReturnStep(system, t, trace);
      ghost var x := Signalled(system.tasks[t].(returned := true), t);
      ghost var shown := items[t := Shared(x, system.jobs[t].father)];
      ShowsPut(items, system, t, x);
      last := items[t].nchildren == 1;
      items := items[t := items[t].(nchildren := items[t].nchildren - 1)];
      if last {
        items := items[t := items[t].(status := Status.Done)];
      }
      assert items == shown;
      Done(Return(t));
    }

    /** One turn of the loop of `finish_execution`, for task `c`. */
    method FinishOne(c: nat, upto: nat, patience: nat) returns (ended: bool, f: int, goOn: bool)
      requires Valid() && InFinish(system, c, Snap(upto))
      modifies this
      ensures Valid() && old(run) < run
      ensures !ended ==> Spins(system, c, upto) && turn >= old(turn) + patience
      ensures ended ==> f < c && c < |items| == |system.jobs| && items[c].status.Deallocatable?
      ensures ended ==> f == system.jobs[c].father && (goOn ==> f >= 0 && InFinish(system, f, Snap(upto)))
      ensures ended && f != NULL && !goOn ==> 0 <= f && items[f].nchildren > 0
    {
      Spin(c, Snap(upto));
      ghost var head;
      f, goOn := NULL, false;
      ended, head := WaitForFillers(c, upto, patience);
      if ended {
        ReleaseAll(c, upto, head);
        FreeLists(c, upto, head);
        f, goOn := SignalFather(c, upto);
      }
    }

    /** `finish_execution`: finishes the task once its body and all children have signalled, and then each ancestor
        whose last signal that was. Of the task and its ancestors, exactly those above `rest` have been finished: `rest`
        has children left, or there is none, or its wait is not over. */
    method FinishExecution(t: nat, patience: nat, ghost trace: seq<int>) returns (outcome: Outcome, rest: int)
      requires Valid() && InBody(system, t, trace) && |trace| == system.jobs[t].steps
      modifies this
      ensures Valid() && old(run) < run && t < |items| == |system.tasks| == |system.jobs|
      ensures rest == NULL || (0 <= rest < |items| && OnPath(system.jobs, t, rest))
      ensures forall a: nat | a < |items| && rest < a && OnPath(system.jobs, t, a) :: items[a].status.Deallocatable?
      ensures match outcome
              case Ended => rest < t && (rest != NULL ==> items[rest].nchildren > 0)
              case ChildrenLeft => rest == t && items[rest].nchildren > 0
              case StillWaiting => 0 <= rest && Spins(system, rest, t)
    {
      outcome, rest := ChildrenLeft, t;
      var goOn := EndBody(t, trace);
      OldestOnPath(t);
      if goOn {
        outcome := Ended;
      }
      while goOn
        invariant Valid() && old(run) < run && t < |system.tasks| == |system.jobs|
        invariant goOn ==> rest >= 0 && InFinish(system, rest, Snap(t)) && outcome == Ended
        invariant rest == NULL || (0 <= rest <= t && OnPath(system.jobs, t, rest))
        invariant FinishedAbove(system, t, rest)
        invariant !goOn && rest != NULL ==> items[rest].nchildren > 0
        invariant !goOn ==> (if outcome == Ended then rest < t else outcome == ChildrenLeft && rest == t)
        decreases rest, goOn
      {
        ghost var before := run;
        var ended, f;
        ended, f, goOn := FinishOne(rest, t, patience);
        GuardedRunKeeps(run);
        GuardedRunKeeps(before);
        TasksStay(before, run);
        FinishedStays(before, run, t, rest);
        DescendantGrows(Last(before).jobs, system.jobs, t, rest);
        if !ended {
          AllShown(t, rest);
          return StillWaiting, rest;
        }
        assert ShowsAt(items, system, rest);
        InvIsFamily(system);
        FinishedNext(system, t, rest);
        rest := f;
      }
      AllShown(t, rest);
    }

    lemma OldestOnPath(t: nat)
      requires Valid() && t < |system.tasks| == |system.jobs|
      ensures FinishedAbove(system, t, t)
    {
      forall a: nat | a < |system.tasks| && t < a && OnPath(system.jobs, t, a) ensures false {
        DescendantIsNewer(system.jobs, t, a);
      }
    }

    lemma AllShown(t: nat, rest: int)
      requires Valid() && t < |system.tasks| == |system.jobs| && FinishedAbove(system, t, rest)
      ensures |items| == |system.tasks|
      ensures forall a: nat | a < |items| && rest < a && OnPath(system.jobs, t, a) :: items[a].status.Deallocatable?
    {
      forall a: nat | a < |items| && rest < a && OnPath(system.jobs, t, a) ensures items[a].status.Deallocatable? {
        assert ShowsAt(items, system, a) && system.tasks[a].status.Deallocatable?;
      }
    }

    /** One access of the body of `t` to memory. */
    method Access(t: nat, job: Job, trace: seq<int>) returns (trace': seq<int>)
      requires Valid() && InBody(system, t, trace) && system.jobs[t] == job && |trace| < job.steps
      modifies this
      ensures Valid() && old(run) < run && InBody(system, t, trace') && system.jobs[t] == job && |trace'| == |trace| + 1
    {
      NoNode(nodes);
      ActStep(system, t, trace);
      match job.act(trace) {
        case Load(a) =>
          trace' := trace + [Get(mem, a)];
        case Store(a, v) =>
          mem := mem[a := v];
          trace' := trace + [0];
        case Idle =>
          trace' := trace + [0];
      }
      ShowsPrivate(items, system, t, system.tasks[t].(trace := trace'));
      ShowsMemory(items, Put(system, t, system.tasks[t].(trace := trace')), mem);
      Done(Act(t));
      Working(t, trace');
    }

    /** Lets the others run while the body of `t` runs. */
    method Working(t: nat, ghost trace: seq<int>)
      requires Valid() && InBody(system, t, trace)
      modifies this
      ensures Valid() && old(run) <= run && InBody(system, t, trace) && system.jobs[t] == old(system).jobs[t]
    {
      ghost var s := system;
      OthersRun(t);
      StaysInBody(s, system, t, trace);
    }

    /** `TaskPool::Task::run`: the body of a posted task, then `finish_execution`. */
    method RunTask(t: nat, job: Job, patience: nat) returns (outcome: Outcome, rest: int)
      requires Valid() && t < |items| == |system.jobs| && items[t].status.Ready? && system.jobs[t] == job
      modifies this
      ensures Valid() && old(run) < run && t < |items| == |system.tasks| == |system.jobs|
      ensures rest == NULL || (0 <= rest < |items| && OnPath(system.jobs, t, rest))
      ensures forall a: nat | a < |items| && rest < a && OnPath(system.jobs, t, a) :: items[a].status.Deallocatable?
      ensures match outcome
              case Ended => rest < t && (rest != NULL ==> items[rest].nchildren > 0)
              case ChildrenLeft => rest == t && items[rest].nchildren > 0
              case StillWaiting => 0 <= rest && Spins(system, rest, t)
    {
      GuardedRunKeeps(run);
      NoNode(nodes);
      assert ShowsAt(items, system, t);
      StartStep(system, t);
      ShowsPut(items, system, t, system.tasks[t].(status := Running));
      items := items[t := items[t].(status := Running)];
      Done(Start(t));
      var trace := [];
      Working(t, trace);
      while |trace| < job.steps
        invariant Valid() && old(run) < run && InBody(system, t, trace) && system.jobs[t] == job
        decreases job.steps - |trace|
      {
        trace := Access(t, job, trace);
      }
      outcome, rest := FinishExecution(t, patience, trace);
    }
  }

  /** How a call of `finish_execution` ends: with children of the task still to signal, with the task finished, or in
      this model with its patience at an end. */
  datatype Outcome = ChildrenLeft | Ended | StillWaiting

  /** Fills the array of arguments from the list. */
  method FillArgv(list: ArgInfo?, nargs: nat, ghost listed: seq<ArgInfo>) returns (argv: array<ArgInfo?>)
    requires ArgList.Linked(list, listed) && nargs == |listed|
    ensures fresh(argv) && Holds(argv, listed)
  {
    argv := new ArgInfo?[nargs + 1](_ => null);
    var argW, i := list, 0;
    while argW != null
      invariant i <= |listed| && argW == ArgList.At(listed, i)
      invariant forall j | 0 <= j < i :: argv[j] == listed[j]
      decreases |listed| - i
    {
      assert LinkedAt(listed, i);
      argv[i] := argW;
      argW := argW.next;
      i := i + 1;
    }
    argv[nargs] := null;
  }
}
