/** Each step of the runtime keeps the invariant. */
module Steps {
  import opened Protocol
  import opened Invariants
  import opened Preservation
  import opened Sums

  /** What reading a node writes: nothing but the position of the scan and its flag. */
  lemma ReadRecord(s: State, t: nat)
    requires InScan(s, t, Visit)
    ensures DoRead(s, t) == Put(s, t, DoRead(s, t).tasks[t])
    ensures var x, x' := s.tasks[t], DoRead(s, t).tasks[t];
            x' == x.(fill := x'.fill, at := x'.at, ancestor := x'.ancestor, scape := x'.scape)
            && (x'.fill.Visit? || (x'.fill.Examine? && x' == x.(fill := Examine)))
  {
  }

  lemma ReadScan(s: State, t: nat)
    requires InScan(s, t, Visit) && !s.tasks[t].scape && ScanOk(s, t) && ScanOk(s, s.tasks[t].at)
    ensures ScanOk(DoRead(s, t), t)
  {
  }

  lemma ReadTask(s: State, t: nat)
    requires InScan(s, t, Visit) && !s.tasks[t].scape && TaskOk(s, t) && TaskOk(s, s.tasks[t].at)
    ensures TaskOk(DoRead(s, t), t)
  {
    ReadRecord(s, t);
    ReadScan(s, t);
  }

  lemma PassedRecord(s: State, t: nat)
    requires InScan(s, t, Visit) && !s.tasks[t].scape && DoRead(s, t).tasks[t].at != s.tasks[t].at
    ensures DoRead(s, t).tasks[t] == s.tasks[t].(at := s.tasks[t].at - 1, ancestor := DoRead(s, t).tasks[t].ancestor)
    ensures DoRead(s, t) == Put(s, t, DoRead(s, t).tasks[t])
    ensures s.tasks[t].at == s.tasks[t].ancestor || !s.tasks[s.tasks[t].at].status.Live()
  {
  }

  lemma ReadPassed(s: State, t: nat)
    requires Core(s) && InScan(s, t, Visit) && !s.tasks[t].scape && DoRead(s, t).tasks[t].at != s.tasks[t].at
    ensures Core(Put(s, t, DoRead(s, t).tasks[t]))
  {
    var x := s.tasks[t];
    var x' := x.(at := x.at - 1, ancestor := DoRead(s, t).tasks[t].ancestor);
    assert TaskOk(s, t) && TaskOk(s, x.at);
    ReadTask(s, t);
    PassedRecord(s, t);
    assert LeftFilling(s, x.at);
    PutPassed(s, t, x');
  }

  lemma ReadKeeps(s: State, t: nat)
    requires Core(s) && InScan(s, t, Visit) && !s.tasks[t].scape
    ensures Core(DoRead(s, t))
  {
    if DoRead(s, t).tasks[t].at == s.tasks[t].at {
      assert TaskOk(s, t) && TaskOk(s, s.tasks[t].at);
      ReadTask(s, t);
      PutInPlace(s, t, DoRead(s, t).tasks[t]);
    } else {
      PassedRecord(s, t);
      ReadPassed(s, t);
    }
  }

  lemma MatchKeeps(s: State, t: nat)
    requires Core(s) && InScan(s, t, Examine)
    ensures Core(DoMatch(s, t))
  {
    var x' := DoMatch(s, t).tasks[t];
    assert DoMatch(s, t) == Put(s, t, x');
    assert TaskOk(s, t);
    assert TaskOk(s, s.tasks[t].at);
    PutInPlace(s, t, x');
  }

  lemma TestFillKeeps(s: State, t: nat)
    requires Core(s) && InScan(s, t, Test)
    ensures Core(DoTest(s, t))
  {
    var x' := DoTest(s, t).tasks[t];
    assert DoTest(s, t) == Put(s, t, x');
    assert TaskOk(s, t);
    PutPassed(s, t, x');
  }

  lemma DecideKeeps(s: State, t: nat)
    requires Core(s) && Enabled(s, Decide(t))
    ensures Core(Apply(s, Decide(t)))
  {
    assert TaskOk(s, t);
    PutInPlace(s, t, Apply(s, Decide(t)).tasks[t]);
  }

  lemma LeaveKeeps(s: State, t: nat)
    requires Core(s) && Enabled(s, Leave(t))
    ensures Core(Apply(s, Leave(t)))
  {
    assert TaskOk(s, t);
    assert CounterAt(s, t);
    SumNonNegative(|s.tasks|, LinksTo(s, t));
    PutInPlace(s, t, Apply(s, Leave(t)).tasks[t]);
  }

  lemma StartKeeps(s: State, t: nat)
    requires Core(s) && Enabled(s, Start(t))
    ensures Core(Apply(s, Start(t)))
  {
    assert TaskOk(s, t);
    PutInPlace(s, t, Apply(s, Start(t)).tasks[t]);
  }

  lemma MemoryIrrelevant(s: State, mem: Memory)
    requires Core(s)
    ensures Core(s.(mem := mem))
  {
    var s' := s.(mem := mem);
    forall i: nat | i < |s.tasks|
      ensures TaskOk(s', i) && FlagTells(s', i) && WalkWaits(s', i) && Awaited(s', i) && ListedAt(s', i)
      ensures CounterAt(s', i) {
      assert TaskOk(s, i) && FlagTells(s, i) && WalkWaits(s, i) && Awaited(s, i) && ListedAt(s, i) && CounterAt(s, i);
      SumSame(|s.tasks|, LinksTo(s, i), LinksTo(s', i));
      FrameFlag(s, s', i);
      FrameWalk(s, s', i);
    }
  }

  function AfterAccess(x: Task, result: int): Task { x.(trace := x.trace + [result]) }

  lemma AccessKeeps(s: State, t: nat, result: int)
    requires Core(s) && Enabled(s, Act(t))
    ensures Core(Put(s, t, AfterAccess(s.tasks[t], result)))
  {
    assert TaskOk(s, t);
    PutInPlace(s, t, AfterAccess(s.tasks[t], result));
  }

  lemma ActKeeps(s: State, t: nat)
    requires Core(s) && Enabled(s, Act(t))
    ensures Core(DoAct(s, t))
  {
    var result := match s.jobs[t].act(s.tasks[t].trace) case Load(a) => Get(s.mem, a) case _ => 0;
    AccessKeeps(s, t, result);
    MemoryIrrelevant(Put(s, t, AfterAccess(s.tasks[t], result)), DoAct(s, t).mem);
  }

  /** A step that moves the scan past a node that has left `Filling`, or raises PendingFills for it. */
  lemma PutPassed(s: State, t: nat, x: Task)
    requires Core(s) && t < |s.tasks| && Evolves(s.tasks[t], x) && TaskOk(Put(s, t, x), t)
    requires x.at == s.tasks[t].at - 1 && x.fin == s.tasks[t].fin && x.deps == s.tasks[t].deps && !Engaged(x)
    requires s.tasks[t].pending ==> x.pending
    requires x.pending || LeftFilling(s, s.tasks[t].at)
    requires x.ndeps - BeingLinked(x) == s.tasks[t].ndeps - BeingLinked(s.tasks[t])
    ensures Core(Put(s, t, x))
  {
    var s' := Put(s, t, x);
    assert TaskOk(s, t) && FlagTells(s, t) && WalkWaits(s, t) && ListedAt(s, t);
    PutGrows(s, t, x);
    FrameWalk(s, s', t);
    forall j: int | x.at < j < t && !x.pending ensures LeftFilling(s', j) {
      assert LeftFilling(s, j);
      LeftFillingLasts(s, s', j);
    }
    forall i: nat | i < |s.tasks| && i != t && Engaged(s.tasks[i]) && s.tasks[i].at == t ensures Ahead(x.fin, i) {
      assert Awaited(s, i);
    }
    PutOrderly(s, t, x);
    PutCounter(s, t, x);
  }
}
