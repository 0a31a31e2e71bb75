# DepSpawn: a verified model of the dependency runtime

DepSpawn turns function calls into tasks that respect their data dependencies. Each spawned task carries a sorted
list of memory regions with permissions. It is pushed on a shared list, compares itself with every older task, links
itself as a dependant of those it conflicts with, runs when its counter of dependencies reaches 0, and on finishing
releases its own dependants. The promise is that the parallel run behaves like the sequential program. This project
models that runtime in Dafny and proves the promise, together with the protocol properties it rests on, and proves
where the code does not keep it. A second, independent part proves the round trip of the in-place string-vector
conversion in `cfortran.h`.

Check everything with `dafny verify dfyconfig.toml`.

## Structure

| file | content |
|---|---|
| `Regions.dfy`, `ArgScan.dfy`, `Containment.dfy`, `Pruning.dfy`, `ArrayPruning.dfy` | regions and array selections, the two-pointer walks over argument lists, and when they agree with the quadratic definitions; when an argument is dropped |
| `ArgInsert.dfy`, `ArgList.dfy`, `ArgWalk.dfy` | insertion into an argument list as a function; the same on heap nodes in place; the walks and the `argv` array in place |
| `Protocol.dfy` | the runtime as a state machine: every shared access of insertion, body and finishing is one step, and all threads interleave |
| `Accesses.dfy` | what loads and stores of bodies see |
| `Sums.dfy`, `Invariants.dfy`, `Preservation.dfy`, `Steps.dfy`, `Linking.dfy`, `Finishing.dfy`, `Spawning.dfy`, `Safety.dfy` | the invariant, and that each step keeps it |
| `Shelter.dfy`, `Ancestry.dfy` | the guard on spawn calls under which nested programs are safe; scans pass ancestors by |
| `Ordering.dfy`, `Serial.dfy`, `Runs.dfy` | ordering of conflicting tasks, memory, and the theorems over whole runs, nested or flat |
| `Guarantees.dfy` | no lost dependency, counters, flags, subtrees |
| `Progress.dfy`, `Deadlock.dfy` | bounded runs, deadlock freedom, total correctness |
| `Pairs.dfy`, `Triples.dfy`, `Circles.dfy` | exactly when two tasks of two or three run together, and when three get stuck |
| `Cascade.dfy`, `Nesting.dfy`, `Scenarios.dfy` | the exact condition on a cascade, and runs that show what happens without the conditions |
| `ThreadSteps.dfy`, `Threads.dfy` | the code of one thread with its own variables, over shared fields that arbitrary other threads change between its accesses |
| `Observer.dfy` | the destructor that waits for a scope |
| `Cleaning.dfy` | unlinking of dead nodes from the worklist, in place |
| `Nodes.dfy` | lists of distinct nodes |
| `StringVector.dfy` | C and Fortran string vectors in one buffer |

## What is assumed, and why

* Memory is sequentially consistent. `post()` sets the status to `Ready`, after which the task may be started,
  by any thread.
* A task takes plain regions of at least one byte and array selections that are empty in no dimension, in order of
  their address. Only entries of one array start together (`Regions.Arguments`).
* `nargs_`, the number of arguments, is the length of the argument list. The code copies the list into an array of
  `nargs_` places (src/workitem.cpp:57-64), so with a shorter list it goes on to places it never filled.
  `ArgInsert.NargsBoundsList` and `ArgInsert.TwoArgsExactly` say which arguments meet this: distinct start addresses are
  enough, and an argument that is passed twice does not. The model works on the list.
* A body is a deterministic sequence of single memory accesses, each chosen from the results of the ones before, and
  it touches only the regions of its task, writing only writable ones (`Serial.WellBehaved`). The accesses of
  different bodies interleave one by one.
* **Spawns meet a guard** (`Shelter.MaySpawn`): behind every ancestor of the new task, no newer task outside that
  ancestor's subtree is still being inserted. Spawns from outside always meet it, and so does every spawn while no
  insertion is under way, so flat programs and programs with one spawning thread at a time need not care. Runs whose
  spawns meet the guard are **safe** (`Runs.GuardedRunsAreSafe`). The reason is the cascade: when the end of a task ends
  its ancestors too, the code waits for insertions only as far back as the task that started the cascade, not as far as
  the ancestor. `Cascade.CascadeExact` gives the exact condition on a single wait. `Cascade.CascadeLosesDependency` and
  `Cascade.CascadePostsTwice` are runs in which a single spawn fails the guard: in one a task waits for ever, in the
  other a running task is posted again.
* For serial equivalence and ordering, the program is **good** (`Ordering.GoodProgram`); ancestors are not compared:
  * No read is shadowed (`ArgScan.Unshadowed`): the walk that looks for conflicts advances by start address, so it can
    leave a long read behind before it gets to a write inside it. `ArgScan.UnshadowedExact` proves that this is exactly
    what the walk needs to be right on all sublists, which are what pruning leaves it with.
    `ArgScan.AlignedIsUnshadowed` derives it from a simpler rule. `Pairs.MissedConflictChangesMemory` is a finished run
    without it whose memory is not that of the sequential program.
  * Entries of one task on one array agree in their permission. `ArrayPruning.MixedEntriesLoseOrder` shows why, and
    `Triples.MixedEntriesRunTogether` is a run in which two tasks run together because of it.
  * Plain regions and arrays do not share addresses, and selections of one array have one rank.
  * What an older task has against a child, it has against its father (`Ordering.Inherits`), as when children take
    parts of their father's arguments. `Nesting.EscapeMissesConflict` is a run without it in which two conflicting tasks
    run together. Flat programs meet it.
* Order is kept for older tasks that spawn nothing (`Ordering.Opposed`), as all tasks of a flat program do.
  `Triples.NestedConflictRuns` shows why: a newer task drops an argument for a child, and starts while the father still
  runs. For serial equivalence, therefore, a task that spawns shares no written place with a newer task, unless one of
  them makes no accesses (`Serial.SpawnersApart`), as when tasks that spawn leave the accesses to their children.
* For deadlock freedom and termination, the jobs have no **knot** (`Deadlock.Unknotted`): no set of tasks in which each
  is held up by another of the set, as its child, or as an older task in conflict. Flat programs have none, and neither
  have programs in which no task conflicts with one that is newer than one of its ancestors and outside the subtree of
  that ancestor (`Deadlock.Untangled`). `Circles.StuckExactly` shows what a knot can do.

## Where the code and its documentation differ

* The repository's own README.md:11-21 promises that conflicting spawns wait for each other without condition. The
  runs named above show that the code needs conditions. `Pairs.RunTogetherExactly` and
  `Triples.ThirdRunsWithFirstExactly` state exactly when conflicting tasks can run together.
* The comment at depspawn-blitz-0.10/benchmarks/cfortran.h:380 says that the original pointer seems to be returned; that
  is so exactly when the size is a multiple of the element length (`StringVector.OriginalExactly`). Unpacking from the
  pointer that is returned is right for every size. The callers unpack from the pointer they passed in
  (depspawn-blitz-0.10/benchmarks/cfortran.h:627, 730), which is the same one for multiples of the element length only;
  the size of a C array of such elements always is one.

## Model

| member | source | states |
|---|---|---|
| `Runs.SerialEquivalence` | src/workitem.cpp:87-220 | In every safe run of a good program, nested or flat, on plain regions and arrays, whose spawners are apart: once the tasks have finished, the memory is exactly the one that the tasks leave when they run one by one in the order in which they were spawned, whatever the interleaving of spawning, single accesses and finishing |
| `Runs.BodiesSeeSerialValues` | src/depspawn.cpp:260-277 | At every moment of such a run each body has read exactly the values it reads in the sequential program |
| `Accesses.LoadSeesLastStore` | src/depspawn.cpp:260-277 | In every run: a load of a byte or an array element gives the value of the last store to it, by whatever body |
| `Accesses.LoadSeesInitial` | src/depspawn.cpp:260-277 | Before any store to it, a load gives what the place held at the start |
| `Deadlock.MaximalRunsAreSerial` | src/workitem.cpp:296-319 | Total correctness: without knots, such a run that can go no further has every task `Deallocatable`, the sequential memory, and a length within a bound fixed by the program |
| `Runs.OrderingInvariant` | src/workitem.cpp:90-177 | In every state of a safe run of a good program, of two tasks in conflict of which the older spawns nothing, the older is at least `Done`, or the newer reaches it through live edges, the last of which may be a comparison the scan has still to make |
| `Runs.OrderedByEdges` | src/workitem.cpp:90-177 | In the same runs, once the newer tasks have left `Filling`, that chain consists of live edges only |
| `Runs.ConflictsExclude` | src/workitem.cpp:216-220 | In the same runs, a task is not even posted before every older task that it conflicts with and that spawns nothing is at least `Done`, so the two never run together |
| `Ordering.StepKeepsOrdered` | src/workitem.cpp:87-177 | In safe states of good programs, each of the fifteen kinds of step keeps all such pairs ordered |
| `Ordering.EscapeMissesNothing` | src/workitem.cpp:98-105 | In good programs, when a scan ends early at an ancestor, every task it skips that conflicts with the new one and spawns nothing has finished |
| `Ordering.PrunedIsCovered` | src/workitem.cpp:146-168 | Whatever older argument conflicts with a dropped one also conflicts with the task that made it drop |
| `Pruning.PruneExact` | src/workitem.cpp:146-166 | The argument in conflict is dropped if and only if the older entry is a writer and has every byte of it, or, for an array, some entry from there on has every element of it; otherwise the list stays |
| `Ordering.NothingMissed` | src/workitem.cpp:110-177 | In good programs, a comparison with what pruning has left of the arguments that reports nothing had nothing to report |
| `Ancestry.StepKeepsTidy` | src/workitem.cpp:98-177 | Every step of a state that meets the invariant keeps this: scans compare with no ancestor, and every dependency joins two conflicting tasks of which neither is an ancestor of the other |
| `Ancestry.EscapeExact` | src/workitem.cpp:98-105 | A scan ends early exactly when it stands at an ancestor whose father is a task that has each argument of the new one inside a single one of its own, place by place |
| `Pairs.RunTogetherExactly` | src/workitem.cpp:110-177 | Two tasks spawned from outside can run together if and only if the scan of their lists finds no conflict |
| `Pairs.FollowerWaits` | src/workitem.cpp:110-177 | In every safe run: if the scan of the lists of two tasks that follow each other finds a conflict, and the newer is no child of the older, the newer is not posted before the older is at least `Done` |
| `Triples.ThirdRunsWithFirstExactly` | src/workitem.cpp:146-168 | Of three tasks, the second spawned from outside or by the first, the third can run together with the first if and only if its scan finds nothing in the first: directly, or, when the second can run beside the first, with its arguments less the one in conflict with the second, if a writer there has all of it |
| `Triples.NestedConflictRuns` | src/workitem.cpp:146-168 | With one and the same written region for a task, its child and a later task, whatever their bodies do, the later one can start while the first still runs: its argument was dropped for the child, which has ended |
| `Triples.MixedEntriesRunTogether` | src/workitem.cpp:146-147 | A run in which a writer of array cells starts while an older reader of them still runs, its argument dropped for a task that writes other cells and only reads these |
| `Pairs.MissedConflictChangesMemory` | src/workitem.cpp:171-175 | A finished flat run with a shadowed read, whose bodies keep to their regions and whose memory is not the sequential one |
| `Safety.StepKeeps` | src/workitem.cpp:87-319 | Every step of a state that is safe for cascades keeps the whole invariant: bounds, statuses, flags, wait loops, counters, children |
| `Safety.StepKeepsFamily` | src/workitem.cpp:21-30 | Every step, safe or not, keeps the counts of children and the order of fathers |
| `Runs.GuardedRunsAreSafe` | src/workitem.cpp:274-291 | A program whose spawns all meet the guard, nested to any depth and with any number of spawning threads, is safe for cascades at every moment |
| `Shelter.GuardExact` | src/workitem.cpp:274-291 | What the guard is for: a spawn meets it if and only if it keeps every task sheltered, with nothing outside the subtree of an ancestor being inserted between the ancestor and a descendant; that this is enough is `GuardedRunsAreSafe` |
| `Runs.FlatRunsAreGuarded` | src/workitem.cpp:27-29 | Programs without nesting meet the guard, with any number of spawning threads |
| `Runs.OneSpawnerRunsAreGuarded` | src/workitem.cpp:27-29 | So do nested programs that push no task while another one is filling |
| `Cascade.CascadeExact` | src/workitem.cpp:274-291 | A wait that ends at its task makes the drain undisturbed if and only if the part of the list it does not look at holds no filling task that relies on the ancestor |
| `Cascade.CascadeLosesDependency` | src/workitem.cpp:274-319 | A nested run in which a single spawn fails the guard and a task waits for ever: it links itself to an ancestor that has already drained its list |
| `Cascade.CascadePostsTwice` | src/workitem.cpp:216-303 | A nested run in which a single spawn fails the guard and a task that is released during its own insertion, and runs, is posted a second time |
| `Nesting.EscapeMissesConflict` | src/workitem.cpp:98-105 | A guarded run in which a scan ends early at an ancestor and its task runs together with one it conflicts with, since its father did not declare the region |
| `Guarantees.NoLostDependency` | src/workitem.cpp:87-137 | In safe runs, while a spawner that saw a task below `Done` may still compare with it or link to it, that task neither drains `deps` nor has freed `args` |
| `Guarantees.CounterExact` | src/workitem.cpp:119-136 | In safe runs, `ndependencies` is the number of undrained edges of the task, plus one that is being linked |
| `Guarantees.StepMoves` | src/workitem.cpp:216-220 | In safe runs, a step advances statuses, posts a task at most once and only when it leaves `Filling` free of dependencies or loses its last one while waiting, never lowers the counter of a filling task, never adds to a list that is being drained |
| `Guarantees.FlagsExact` | src/workitem.cpp:98-105 | In safe runs, a task out of `Filling` with no flag implies that every older one is; with `FatherScape` alone, every one from its father on |
| `Guarantees.PendingExact` | src/workitem.cpp:189-191 | In every run, `PendingFills` is up if and only if the scan has once seen the task it looked at still filling |
| `Guarantees.ShortcutWaitsForAll` | src/workitem.cpp:274-291 | In safe runs, when the wait loop ends, by reaching its task, by a break or after jumping to fathers, every task between its task and the head it loaded has left `Filling`, as after a full walk |
| `Finishing.WalkTurn` | src/workitem.cpp:274-291 | The same for each turn, in every state that meets the invariant: whatever the turn passes or jumps over has left `Filling`; the walk ends at its task, at the end of the list or at the first node without flags, and jumps to the father exactly from a live node with `FatherScape` alone |
| `Guarantees.ChildrenExact` | src/workitem.cpp:21-30 | In every run, nested or not, `nchildren` is one for the unfinished body plus the children that have not signalled, and a task begins to finish exactly when it is 0 |
| `Guarantees.SubtreeSignalled` | src/workitem.cpp:250-319 | In every run, once a task begins to finish, each descendant has gone through all of `finish_execution` |
| `Guarantees.SubtreeComplete` | src/workitem.cpp:250-319 | In safe runs, a task is `Done` only when all its descendants are `Deallocatable` |
| `Guarantees.ReleasedAfterSubtree` | src/workitem.cpp:296-303 | In safe runs, whatever a task releases has not started when its whole subtree is `Deallocatable` |
| `Progress.RunsAreBounded` | src/workitem.cpp:90-319 | A safe run takes at most a number of steps that depends only on its jobs |
| `Progress.OldestIsNotWaiting` | src/workitem.cpp:119-136 | In safe runs, edges lead from newer to older tasks, so the oldest unfinished task is not `Waiting` |
| `Deadlock.NeverStuck` | src/workitem.cpp:216-319 | In a safe run of jobs without a knot, nested or flat, as long as some task has not gone, some task can take a step other than a spawn |
| `Deadlock.StuckIsKnot` | src/workitem.cpp:216-319 | When a safe run is stuck, its unfinished tasks are a knot: each is held up by one of them, as its child or as an older task that it conflicts with |
| `Deadlock.MaximalRunsFinish` | src/workitem.cpp:216-319 | A safe run without knots that can go no further has every task `Deallocatable`, within the bound |
| `Deadlock.UntangledIsUnknotted` | src/workitem.cpp:110-177 | There is no knot if no task conflicts with one that is newer than one of its ancestors and outside the subtree of that ancestor |
| `Deadlock.FlatIsUnknotted` | src/workitem.cpp:110-177 | Programs without nesting have no knot, whatever their tasks access |
| `Circles.StuckExactly` | src/workitem.cpp:110-177 | Two tasks from outside and a child of the first, spawned within the guard, can get stuck if and only if the scan of the second finds a conflict with the first and that of the child one with the second |
| `Circles.KnotWithoutDeadlock` | src/workitem.cpp:171-175 | A program with a knot that never gets stuck, since the scan misses one of the conflicts |
| `ArgScan.ScanExact` | src/workitem.cpp:113-177 | With distinct starts, the scan reports a conflict if and only if some conflicting pair is such that the predecessor of the old entry starts before the new one and the predecessor of the new entry starts no later than the old one |
| `ArgScan.ScanFindsFirst` | src/workitem.cpp:110-177 | For any two lists sorted by start, also with repeated array entries and arrays among plain regions: the scan reports the first such pair on both sides, and nothing exactly when there is none |
| `ArgScan.ScanComplete` | src/workitem.cpp:110-177 | Without shadowed reads the scan agrees with the pairwise definition, on lists of plain regions and arrays |
| `ArgScan.UnshadowedExact` | src/workitem.cpp:146-177 | No shadowed read if and only if the scan is right on every pair of sublists |
| `ArgScan.AlignedIsUnshadowed` | src/workitem.cpp:171-175 | Disjoint plain regions within a task and identical overlapping reads leave no read shadowed |
| `ArgScan.ShadowedReadIsMissed` | src/workitem.cpp:171-175 | An old read of [0, 100) with a new read of [10, 20) and a new write of [30, 40): the conflict is missed |
| `ArgScan.ArrayScanExact` | src/workitem.cpp:113-117 | On array lists sorted by address, with repeated entries, the scan finds a conflict if and only if two entries on one array, one of them written, overlap in every dimension |
| `ArgScan.OverlapArrayExact` | src/depspawn.cpp:408-437 | The loop over the entries of one array finds exactly the conflicts there are |
| `Regions.ConflictIffShare` | src/depspawn.cpp:88-97 | The test of the code on two arguments, plain or array, holds if and only if they share a place and one is written |
| `Regions.ConflictsIffRace` | src/depspawn.cpp:88-97 | Two lists conflict if and only if some place is touched by both and written by one |
| `Regions.ContainsIffCoversAll` | src/depspawn.cpp:100-110 | A region contains another if and only if it covers each of its bytes |
| `ArgWalk.ScanArgs` | src/workitem.cpp:110-177 | The walk with cursors over linked nodes and the `argv` array finds the pair that the scan function finds |
| `ArgWalk.DropArg` | src/workitem.cpp:164-166 | Shifting the array in place drops exactly one argument and keeps the terminating null |
| `ArgWalk.FindsOverlap` | src/depspawn.cpp:408-437 | The loop over linked entries computes the function proved exact above |
| `ArgWalk.IsContained` | src/depspawn.cpp:467-498 | The walk over two linked lists, of plain regions and arrays, computes the walk as a function |
| `ArgWalk.IsContainedExactly` | src/depspawn.cpp:467-498 | On the arguments of tasks it answers whether each argument lies inside a single one of the other list, place by place |
| `ArgWalk.IsContainedPlain` | src/depspawn.cpp:467-498 | On sorted plain lists it answers whether each region lies inside a single region of the other list |
| `Containment.ContainmentExact` | src/depspawn.cpp:467-498 | The same for the walk as a function, on lists of plain regions and arrays whose entries may overlap or nest |
| `Containment.ArrayContainmentExact` | src/depspawn.cpp:439-498 | On array lists it is exact element by element, whatever else the other list holds |
| `Containment.RangesContainExact` | src/depspawn.cpp:448-457 | The test on inclusive ranges holds if and only if every element of the inner selection is one of the outer |
| `ArrayPruning.PruningExact` | src/workitem.cpp:146-147 | Dropping a contained array argument loses no order if and only if it is only read or each of its cells is written by some entry of the older task |
| `ArrayPruning.OneEntryLosesNoOrder` | src/workitem.cpp:146-147 | With one entry per array the test of the code is enough |
| `ArrayPruning.MixedEntriesLoseOrder` | src/workitem.cpp:146-147 | With two entries of different permission it is not: an example |
| `ArgInsert.InsertModes` | src/depspawn.cpp:325-406 | After an insertion each byte has the larger of its old mode and the mode of the new region |
| `ArgInsert.InsertSorted` | src/depspawn.cpp:325-406 | A plain list stays strictly sorted, loses no node, and keeps its head address unless the new region starts before it |
| `ArgInsert.InsertMerges` | src/depspawn.cpp:325-406 | The size and permission of every node after an insertion, wherever it is in the list, are those of merging the region into the nodes by their starts: what both share gets both permissions, the rest of the longer one is added behind unless it has them |
| `ArgInsert.InsertArrayReplicates` | src/depspawn.cpp:371-406 | An array entry is added behind all entries that start no later, and nothing is merged |
| `ArgInsert.BuildArgsModes` | include/depspawn/depspawn.h:546-571 | The list built from plain arguments allows at each byte exactly what the arguments allow |
| `ArgInsert.NargsBoundsList` | include/depspawn/depspawn.h:546-571 | The argument count bounds the length of the list, and equals it when no two arguments start together |
| `ArgInsert.TwoArgsExactly` | src/depspawn.cpp:325-369 | Two arguments make a single node if and only if they start together and either have one size or the longer one has the permission of both |
| `ArgInsert.SharedStartKeepsNodes` | src/depspawn.cpp:343-350 | Distinct starts are not necessary: a read of [0, 10) and a write of [0, 4) make two nodes |
| `ArgList.ArgInfo.InsertInArglist` | src/depspawn.cpp:371-406 | In place on linked nodes: the list and the freed flag are those of the insertion function, the listed nodes keep their order, at most the inserted node is freed, and the recursion never changes the head |
| `ArgList.ArgInfo.SolveOverlap` | src/depspawn.cpp:325-369 | In place: the merge of two nodes that start together is that of the function, through all branches of the mutual recursion, which ends |
| `Threads.Runtime.InsertInWorklist` | src/workitem.cpp:54-220 | The loop over its own cursor, ancestor and `argv` array, with others changing the shared fields between its accesses: each access is a step of the protocol, the scan ends at the oldest task or at an ancestor that contains the task, and the task is left `Ready` if it has no dependencies and `Waiting` otherwise |
| `Threads.Runtime.Compare` | src/workitem.cpp:107-192 | One older task: the inner walk over both lists, the count, the new dependant and the dropped argument leave the thread's variables and the shared fields as the protocol has them, whatever happens in between |
| `Threads.Runtime.WaitForFillers` | src/workitem.cpp:266-291 | The wait loop with its own cursor, reading statuses and flags and jumping to fathers, is a walk of the protocol, also on behalf of an ancestor; it ends as the protocol ends it, or is left at a task that is still filling |
| `Threads.Runtime.ReleaseAll` | src/workitem.cpp:296-303 | The loop over `deps` decrements and posts exactly as the protocol drains |
| `Threads.Runtime.FinishExecution` | src/workitem.cpp:247-319 | The loop over the task and its ancestors, with nested programs: it finishes them one after the other, and ends at the first that has children left, or at none; those before are `Deallocatable`. It returns at once when the task itself has children left, and may be left while a wait stands at a task that is still filling |
| `Threads.Runtime.RunTask` | src/depspawn.cpp:260-277 | A posted task runs its body access by access and then `finish_execution`, each access a step of the protocol, with the same ends |
| `Observer.ObserverExit` | src/depspawn.cpp:672-731 | When the destructor's loop ends, with statuses advancing and any task spawning in between, every child of the father newer than the limit, or every root task when there is no father, is at least `Done` if it was spawned before the call |
| `Observer.ObserverExitBelow` | src/depspawn.cpp:672-731 | Everything below such a child is then `Deallocatable`, whenever it was spawned |
| `Observer.ScopeIsAwaited` | src/depspawn.cpp:660-731 | Every child that the father spawns after the constructor has taken the head of the list as its limit, and before the call of the destructor, is waited for |
| `Observer.ScopeCanEnd` | src/depspawn.cpp:660-731 | Once all of these have finished, the destructor can end, whatever the father spawned before the scope was opened |
| `Observer.PassExact` | src/depspawn.cpp:702-726 | A pass over an unchanged list ends the loop if and only if every child of the father newer than the limit, or every root task when there is no father, has finished |
| `Observer.PassFindsFathers` | src/depspawn.cpp:706-709 | A pass adds to the set of fathers exactly the tasks newer than the limit whose fathers were in it |
| `Observer.GuaranteedExactly` | src/depspawn.cpp:672-731 | Of the unfinished tasks below the father, those are waited for that descend through a child newer than the limit, and no others once only the others are left |
| `Observer.ObserverCanExit` | src/depspawn.cpp:702-726 | Once every child spawned within the scope has finished, a single pass lets the destructor end, whatever else is live |
| `Nesting.GrandchildIsNotAwaited` | src/depspawn.cpp:697-726 | A run in which the destructor ends before a grandchild, spawned meanwhile by a child from before the scope, has started |
| `Cleaning.UnlinkDead` | src/workitem.cpp:335-368 | In place, while statuses advance: exactly the maximal dead runs of more than four nodes and the one that ends the list are cut, every other link is as before, each deleted sublist spans one cut, every node behind the head that is `Done` before and after is noted, each node noted is at least `Done`, kept, and noted once |
| `Cleaning.CleaningPartitions` | src/workitem.cpp:335-368 | Following the links from the head gives the old list in order without the nodes cut out; those are all `Deallocatable`, and every node that is not stays |
| `Cleaning.GoneExactly` | src/workitem.cpp:342-368 | A node is cut out if and only if it lies in a dead run that is long or ends the list; the head never is |
| `Cleaning.InOneCut` | src/workitem.cpp:348-368 | The cuts are disjoint: a node lies in at most one |
| `Cleaning.SublistIsSegment` | src/workitem.cpp:348-368 | A deleted sublist, walked through `next`, is the contiguous segment from its first to its last node |
| `Cleaning.KeptReachable` | src/workitem.cpp:348-368 | From any node of the old list, cut out or kept, following the links reaches every older kept node |
| `StringVector.RoundTrip` | depspawn-blitz-0.10/benchmarks/cfortran.h:366-440 | Packing, unpacking from the pointer that packing returns, and killing trailing blanks in one buffer of any size gives back each string without its trailing blanks and touches nothing behind the vector |
| `StringVector.AnyBufferIsVector` | depspawn-blitz-0.10/benchmarks/cfortran.h:366-381 | Whatever a buffer holds, its elements are a vector, so what is proved of vectors excludes no contents |
| `StringVector.OriginalExactly` | depspawn-blitz-0.10/benchmarks/cfortran.h:380-381 | Packing returns the pointer it was given if and only if the size is a multiple of the element length |
| `StringVector.ElementRoundTrip` | depspawn-blitz-0.10/benchmarks/cfortran.h:376-440 | The same for a single element, as a statement about values |
| `StringVector.C2fstrv` | depspawn-blitz-0.10/benchmarks/cfortran.h:366-381 | Both vectors in one buffer: each string becomes its blank-padded field although the buffer is overwritten while it is read, and the offset that is returned |
| `StringVector.F2cstrv` | depspawn-blitz-0.10/benchmarks/cfortran.h:383-398 | Backwards in the same buffer: each field becomes a terminated element, whatever the size |
| `StringVector.KillTrailing` | depspawn-blitz-0.10/benchmarks/cfortran.h:413-427 | The terminator goes behind the last other character before `e`; nothing changes when `e` is before the string |
| `StringVector.VkillTrailing` | depspawn-blitz-0.10/benchmarks/cfortran.h:429-440 | Every element of a vector loses its trailing characters and nothing else changes |

## Left out

- Guarantees.SubtreeComplete: needs safe runs, since without them a finished task can be posted again; what holds in every run is stated by `SubtreeSignalled` and `ChildrenExact`.
- Guarantees.NoLostDependency: needs safe runs, because of the cascade wait; `GuardedRunsAreSafe` says which programs have only safe runs.
- Guarantees.StepMoves: needs safe runs; `CascadePostsTwice` ends with a step that posts a running task.
- Progress.OldestIsNotWaiting: needs safe runs; in the last state of `CascadeLosesDependency` the oldest unfinished task waits.
- Observer.ObserverExit: needs safe runs; children spawned after the call by other threads, when the scope has no father, are not covered.
- Threads.Runtime.WaitForFillers: the spin on a filling task is given up after a number of looks; a filling task can always take a step.
- Threads.Runtime.InsertInWorklist: for spawns that meet the guard and lists as long as the argument count.
- ArgInsert.BuildArgsModes: lists into which both plain regions and arrays are inserted; array entries alone are covered by `InsertArrayReplicates`, and the walks and the protocol take mixed lists.
- ArgScan.ScanExact: for one entry at each address; with repeated array entries it is `ScanFindsFirst`.
- Runs.ConflictsExclude: order after a task that spawns is false of the code, as `NestedConflictRuns` shows; exactly when is stated for three tasks, not for any number.
- Runs.SerialEquivalence: the sequential order of a nested program is the order in which its tasks were spawned in that run, not the order of a depth-first execution.
- Deadlock.NeverStuck: not every knot can lead to a deadlock, as `KnotWithoutDeadlock` shows; exactly which do is stated for three tasks.
- Shelter.GuardExact: that every failed guard can lose a dependency is not claimed; `CascadeLosesDependency` is one that does.
- Array selections of different rank: the code asserts equal rank; in the model they neither overlap nor contain each other.
- The increment of the father's `nchildren` and the push are one step, as are the decrement of a counter and the `post()` or the `Done` it leads to, linking and dropping the covered argument, and finding the end of `deps` and freeing it.
- A father can end its body in the model while its own spawn call is still scanning, which the code excludes: the model has more runs.
- A task that has been posted twice is started again in the model only after its status is `Ready` again, and keeps one record.
- Cleaning is not a step of the protocol, whose list keeps all nodes; that walks only skip nodes that are `Deallocatable` is `Cleaning.KeptReachable` and `Cleaning.CleaningPartitions`.
- Freeing of cleaned nodes against concurrent walkers, and the second half of `Clean_worklist` that waits for them.
- The scan's test for meeting its own task, which a correct push never makes true.
- Use-after-free, memory pools, wrap-around of addresses and counters (the model uses unbounded integers), and the narrowing of `nargs_` to a `char`.
- Thread pool, TBB, work stealing and fast-start heuristics: any started task may be run by any thread at any time.
- Weak memory and the fences and compare-exchange loops written for it.
- Profiling, debug output, environment variables, and all Blitz++ files other than the four string-vector functions.
