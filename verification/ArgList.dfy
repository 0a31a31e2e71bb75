/** The argument list as the runtime keeps it: nodes linked through `next`, merged in place. */
module ArgList {
  import opened Regions
  import opened ArgInsert
  import opened Nodes

  class ArgInfo {
    var addr: nat
    var size: nat
    var wr: bool
    var dims: seq<(int, int)>
    var next: ArgInfo?

    constructor (addr: nat, size: nat, wr: bool, dims: seq<(int, int)>)
      ensures View() == Region(addr, size, wr, dims) && next == null
    {
      this.addr := addr;
      this.size := size;
      this.wr := wr;
      this.dims := dims;
      next := null;
    }

    function View(): Region
      reads this
    {
      Region(addr, size, wr, dims)
    }

    predicate IsArray()
      reads this
    {
      dims != []
    }

    /** Inserts this node, in order, in the list `nodes` that starts at `args`. The new head is returned, and
        whether this node has been freed. */
    method InsertInArglist(args: ArgInfo?, ghost nodes: seq<ArgInfo>)
      returns (head: ArgInfo, freed: bool, ghost nodes': seq<ArgInfo>)
      requires Linked(args, nodes) && this !in nodes && next == null
      requires !IsArray() ==> AllPlain(Views(nodes)) && View().Plain()
      modifies this, nodes
      decreases |nodes|, SameStart(Views(nodes), View()), 3
      ensures Linked(head, nodes')
      ensures Insertion(Views(nodes'), freed) == Insert(old(Views(nodes)), old(View()))
      ensures InsertedInto(nodes, this, freed, nodes')
      ensures args != null && old(args.addr) <= old(addr) ==> head == args
    {
      freed := false;
      if args == null {
        head, nodes' := this, [this];
        assert nodes' == nodes[..0] + [this] + nodes[0..] && LinkedAt(nodes', 0);
      } else if addr < args.addr {
        next := args;
        head, nodes' := this, nodes[..0] + [this] + nodes[0..];
        forall i: nat | i < |nodes'| ensures LinkedAt(nodes', i) {
          assert i > 0 ==> old(LinkedAt(nodes, i - 1));
        }
      } else {
        head := args;
        freed, nodes' := InsertLater(args, nodes, Views(nodes), View());
      }
    }

    /** Inserts this node behind a head that starts no later. */
    method InsertLater(args: ArgInfo, ghost nodes: seq<ArgInfo>, ghost rs: seq<Region>, ghost r: Region)
      returns (freed: bool, ghost nodes': seq<ArgInfo>)
      requires Linked(args, nodes) && this !in nodes && next == null && args.addr <= addr
      requires rs == Views(nodes) && r == View() && (!r.IsArray() ==> AllPlain(rs) && r.Plain())
      modifies this, nodes
      decreases |nodes|, SameStart(rs, r), 2
      ensures Linked(args, nodes')
      ensures Insertion(Views(nodes'), freed) == Insert(rs, r)
      ensures InsertedInto(nodes, this, freed, nodes')
    {
      var prev, p;
      ghost var front, rest;
      prev, p, front, rest := FindPlace(args, nodes);
      PlainParts(Views(front), Views(rest));
      InsertSkips(Views(front), Views(rest), r);
      assert forall i | 0 <= i < |rest| :: rest[i] == nodes[|front| + i];
      assert forall i | 0 <= i < |front| :: front[i] == nodes[i];
      freed, nodes' := InsertBehind(front, prev, p, rest, Views(rest), r);
    }

    /** Inserts this node in `rest` and joins the result with what leads to it. */
    method InsertBehind(ghost front: seq<ArgInfo>, prev: ArgInfo, p: ArgInfo?, ghost rest: seq<ArgInfo>,
                        ghost rs: seq<Region>, ghost r: Region)
      returns (freed: bool, ghost nodes': seq<ArgInfo>)
      requires LeadsTo(front, prev) && Linked(prev, rest) && p == prev.next && this !in rest && next == null
      requires forall i | 0 <= i < |front| :: front[i] != this
      requires forall i, j | 0 <= i < |front| && 0 <= j < |rest| :: front[i] != rest[j]
      requires prev.addr <= addr && (p != null ==> addr < p.addr)
      requires rs == Views(rest) && r == View() && (!r.IsArray() ==> AllPlain(rs) && r.Plain())
      modifies this, rest
      decreases |rest|, SameStart(rs, r), 1
      ensures Linked(if front == [] then prev else front[0], nodes')
      ensures Views(nodes') == old(Views(front)) + Insert(rs, r).list && freed == Insert(rs, r).freed
      ensures InsertedInto(front + rest, this, freed, nodes')
    {
      ghost var rest';
      freed, rest' := InsertNextTo(prev, p, rest, rs, r);
      assert LeadsTo(front, prev);
      JoinInserted(front, prev, rest, this, freed, rest');
      nodes' := front + rest';
      InsertedBehind(front, rest, this, freed, rest');
    }

    /** The last node that starts no later than this one, and the one after it. */
    method FindLast(args: ArgInfo, ghost nodes: seq<ArgInfo>) returns (prev: ArgInfo, p: ArgInfo?, ghost e: nat)
      requires Linked(args, nodes) && args.addr <= addr
      ensures e < |nodes| && prev == nodes[e] && p == prev.next == At(nodes, e + 1)
      ensures (forall i | 0 <= i <= e :: nodes[i].addr <= addr) && (p != null ==> addr < p.addr)
    {
      prev := args;
      p := args.next;
      e := 0;
      assert LinkedAt(nodes, 0);
      while p != null && p.addr <= addr
        invariant 0 <= e < |nodes| && prev == nodes[e] && p == prev.next == At(nodes, e + 1)
        invariant forall i | 0 <= i <= e :: nodes[i].addr <= addr
        decreases |nodes| - e
      {
        assert LinkedAt(nodes, e + 1);
        prev := p;
        p := p.next;
        e := e + 1;
      }
    }

    /** The list in two parts, the second of which begins with that node. */
    method FindPlace(args: ArgInfo, ghost nodes: seq<ArgInfo>)
      returns (prev: ArgInfo, p: ArgInfo?, ghost front: seq<ArgInfo>, ghost rest: seq<ArgInfo>)
      requires Linked(args, nodes) && args.addr <= addr
      ensures nodes == front + rest && Views(nodes) == Views(front) + Views(rest)
      ensures LeadsTo(front, prev) && Linked(prev, rest) && rest != [] && p == prev.next
      ensures forall i, j | 0 <= i < |front| && 0 <= j < |rest| :: front[i] != rest[j]
      ensures prev.addr <= addr && (forall i | 0 <= i < |front| :: front[i].addr <= addr)
          && (p != null ==> addr < p.addr)
      ensures args == if front == [] then prev else front[0]
    {
      ghost var e;
      prev, p, e := FindLast(args, nodes);
      front, rest := nodes[..e], nodes[e..];
      SplitViews(nodes, e);
      SplitList(args, nodes, e);
    }

    /** Inserts this node when the head of `rest` is the last node that starts no later. */
    method InsertNextTo(prev: ArgInfo, p: ArgInfo?, ghost rest: seq<ArgInfo>, ghost rs: seq<Region>, ghost r: Region)
      returns (freed: bool, ghost rest': seq<ArgInfo>)
      requires Linked(prev, rest) && this !in rest && next == null && p == prev.next
      requires prev.addr <= addr && (p != null ==> addr < p.addr)
      requires rs == Views(rest) && r == View() && (!r.IsArray() ==> AllPlain(rs) && r.Plain())
      modifies this, rest
      decreases |rest|, SameStart(rs, r), 0
      ensures Linked(prev, rest') && rest' != []
      ensures Insertion(Views(rest'), freed) == Insert(rs, r)
      ensures InsertedInto(rest, this, freed, rest')
    {
      assert LinkedAt(rest, 0);
      assert StopsAtHead(rs, r);
      if !IsArray() && addr == prev.addr {
        freed, rest' := SolveOverlap(prev, rest, rs, r);
      } else {
        freed := false;
        rest' := LinkAfter(prev, p, rest);
      }
    }

    /** Links this node between `prev`, the head of `rest`, and its successor. */
    method LinkAfter(prev: ArgInfo, p: ArgInfo?, ghost rest: seq<ArgInfo>) returns (ghost rest': seq<ArgInfo>)
      requires Linked(prev, rest) && rest != [] && this !in rest && p == prev.next
      modifies this`next, prev`next
      ensures rest' == rest[..1] + [this] + rest[1..] && Linked(prev, rest') && InsertedInto(rest, this, false, rest')
      ensures Views(rest') == [old(prev.View()), old(View())] + old(Views(rest))[1..]
    {
      assert LinkedAt(rest, 0);
      label before:
      prev.next := this;
      next := p;
      rest' := rest[..1] + [this] + rest[1..];
      forall i: nat | i < |rest'| ensures LinkedAt(rest', i) {
        assert i > 1 ==> old@before(LinkedAt(rest, i - 1));
      }
    }

    /** Merges this plain node with `other`, which starts at the same address and heads the list `nodes`. */
    method SolveOverlap(other: ArgInfo, ghost nodes: seq<ArgInfo>, ghost rs: seq<Region>, ghost r: Region)
      returns (freed: bool, ghost nodes': seq<ArgInfo>)
      requires Linked(other, nodes) && this !in nodes && next == null
      requires rs == Views(nodes) && r == View() && AllPlain(rs) && r.Plain() && addr == other.addr
      modifies this, nodes
      decreases |nodes|, 0, 5
      ensures Linked(other, nodes')
      ensures Insertion(Views(nodes'), freed) == Solve(rs, r)
      ensures InsertedInto(nodes, this, freed, nodes')
    {
      var orwr := wr || other.wr;
      nodes' := nodes;
      freed := true;
      if size == other.size {
        other.wr := orwr;
        forall i: nat | i < |nodes| ensures LinkedAt(nodes, i) && (i > 0 ==> nodes[i].View() == rs[i]) {
          assert old(LinkedAt(nodes, i)) && (i > 0 ==> nodes[0] != nodes[i]);
        }
        ViewsWithHead(nodes, other.View(), rs);
      } else if size < other.size {
        if orwr != other.wr {
          freed, nodes' := SplitShorter(other, nodes, rs, r);
        }
      } else {
        if orwr == wr {
          other.wr := orwr;
          other.size := size;
          forall i: nat | i < |nodes| ensures LinkedAt(nodes, i) && (i > 0 ==> nodes[i].View() == rs[i]) {
            assert old(LinkedAt(nodes, i)) && (i > 0 ==> nodes[0] != nodes[i]);
          }
          ViewsWithHead(nodes, other.View(), rs);
        } else {
          freed, nodes' := SplitLonger(other, nodes, rs, r);
        }
      }
    }

    /** The part of `other` beyond this writer becomes this node, which is inserted after it. */
    method SplitShorter(other: ArgInfo, ghost nodes: seq<ArgInfo>, ghost rs: seq<Region>, ghost r: Region)
      returns (freed: bool, ghost nodes': seq<ArgInfo>)
      requires Linked(other, nodes) && nodes != [] && this !in nodes && next == null
      requires rs == Views(nodes) && r == View() && AllPlain(rs) && r.Plain() && addr == other.addr && size < other.size
      modifies this, nodes
      decreases |nodes|, 0, 4
      ensures Linked(other, nodes')
      ensures Insertion(Views(nodes'), freed) == Insert([Shared(rs[0], r)] + rs[1..], Beyond(rs[0], r))
      ensures InsertedInto(nodes, this, freed, nodes')
    {
      TakeBeyond(other, rs[0], r);
      forall i: nat | i < |nodes| ensures LinkedAt(nodes, i) && (i > 0 ==> nodes[i].View() == rs[i]) {
        assert old(LinkedAt(nodes, i)) && (i > 0 ==> nodes[0] != nodes[i]);
      }
      ViewsWithHead(nodes, Shared(rs[0], r), rs);
      var head;
      head, freed, nodes' := InsertInArglist(other, nodes);
    }

    /** Makes `other` as short as this node, and this node what is left of it. */
    method TakeBeyond(other: ArgInfo, ghost o: Region, ghost r: Region)
      requires this != other && o == other.View() && r == View()
      requires o.Plain() && r.Plain() && addr == other.addr && size < other.size
      modifies this`addr, this`size, this`wr, other`size, other`wr
      ensures other.View() == Shared(o, r) && View() == Beyond(o, r)
    {
      var tmpSize := size;
      var orwr := wr || other.wr;
      addr := addr + size;
      size := other.size - size;
      wr := other.wr;
      other.size := tmpSize;
      other.wr := orwr;
    }

    /** The part of this reader beyond the writer `other` is inserted after it. */
    method SplitLonger(other: ArgInfo, ghost nodes: seq<ArgInfo>, ghost rs: seq<Region>, ghost r: Region)
      returns (freed: bool, ghost nodes': seq<ArgInfo>)
      requires Linked(other, nodes) && nodes != [] && this !in nodes && next == null
      requires rs == Views(nodes) && r == View() && AllPlain(rs) && r.Plain() && addr == other.addr && size > other.size
      requires wr ==> other.wr
      modifies this, nodes
      decreases |nodes|, 0, 4
      ensures Linked(other, nodes')
      ensures Insertion(Views(nodes'), freed) == Insert([Shared(rs[0], r)] + rs[1..], Beyond(rs[0], r))
      ensures InsertedInto(nodes, this, freed, nodes')
    {
      addr := addr + other.size;
      size := size - other.size;
      assert Views(nodes) == [Shared(rs[0], r)] + rs[1..] && View() == Beyond(rs[0], r);
      var head;
      head, freed, nodes' := InsertInArglist(other, nodes);
    }
  }

  function At(nodes: seq<ArgInfo>, i: nat): ArgInfo? {
    if i < |nodes| then nodes[i] else null
  }

  /** No listed node is freed, and the new one is listed unless it is. */
  ghost predicate InsertedInto(nodes: seq<ArgInfo>, n: ArgInfo, freed: bool, nodes': seq<ArgInfo>) {
    if freed then nodes' == nodes else exists k: nat | k <= |nodes| :: nodes' == nodes[..k] + [n] + nodes[k..]
  }

  lemma InsertedBehind(front: seq<ArgInfo>, rest: seq<ArgInfo>, n: ArgInfo, freed: bool, rest': seq<ArgInfo>)
    requires InsertedInto(rest, n, freed, rest')
    ensures InsertedInto(front + rest, n, freed, front + rest')
  {
    if !freed {
      var j: nat :| j <= |rest| && rest' == rest[..j] + [n] + rest[j..];
      assert front + rest' == (front + rest)[..|front| + j] + [n] + (front + rest)[|front| + j..];
    }
  }

  predicate LinkedAt(nodes: seq<ArgInfo>, i: nat)
    requires i < |nodes|
    reads nodes
  {
    nodes[i].next == At(nodes, i + 1)
  }

  /** `nodes` are the distinct nodes met from `head` through `next`. */
  predicate Linked(head: ArgInfo?, nodes: seq<ArgInfo>)
    reads nodes
  {
    head == At(nodes, 0) && Distinct(nodes) && forall i: nat | i < |nodes| :: LinkedAt(nodes, i)
  }

  function Views(nodes: seq<ArgInfo>): (rs: seq<Region>)
    reads nodes
    ensures |rs| == |nodes|
    ensures forall i | 0 <= i < |nodes| :: rs[i] == nodes[i].View()
  {
    seq(|nodes|, i requires 0 <= i < |nodes| reads nodes => nodes[i].View())
  }

  lemma ViewsWithHead(nodes: seq<ArgInfo>, head: Region, rs: seq<Region>)
    requires 0 < |nodes| == |rs| && nodes[0].View() == head
    requires forall i: nat | 0 < i < |nodes| :: nodes[i].View() == rs[i]
    ensures Views(nodes) == [head] + rs[1..]
  {
  }

  lemma SplitViews(nodes: seq<ArgInfo>, k: nat)
    requires k < |nodes|
    ensures Views(nodes) == Views(nodes[..k]) + Views(nodes[k..])
    ensures Views(nodes[k..]) == Views(nodes)[k..] && Views(nodes[..k]) == Views(nodes)[..k]
  {
  }

  lemma SplitList(head: ArgInfo?, nodes: seq<ArgInfo>, k: nat)
    requires Linked(head, nodes) && k < |nodes|
    ensures Linked(nodes[k], nodes[k..]) && LeadsTo(nodes[..k], nodes[k])
    ensures forall i, j | 0 <= i < k <= j < |nodes| :: nodes[i] != nodes[j]
  {
    var front, rest := nodes[..k], nodes[k..];
    forall i: nat | i < |rest| ensures LinkedAt(rest, i) {
      assert LinkedAt(nodes, k + i);
    }
    forall i: nat | i < |front| ensures LeadsAt(front, nodes[k], i) {
      assert LinkedAt(nodes, i);
    }
  }

  predicate LeadsAt(front: seq<ArgInfo>, first: ArgInfo, i: nat)
    requires i < |front|
    reads front
  {
    front[i].next == if i + 1 < |front| then At(front, i + 1) else first
  }

  predicate LeadsTo(front: seq<ArgInfo>, first: ArgInfo)
    reads front
  {
    Distinct(front) && forall i: nat | i < |front| :: LeadsAt(front, first, i)
  }

  lemma JoinLists(front: seq<ArgInfo>, first: ArgInfo, rest: seq<ArgInfo>)
    requires LeadsTo(front, first) && Linked(first, rest) && rest != []
    requires forall i, j | 0 <= i < |front| && 0 <= j < |rest| :: front[i] != rest[j]
    ensures Linked((front + rest)[0], front + rest)
    ensures Views(front + rest) == Views(front) + Views(rest)
  {
    var all := front + rest;
    forall i: nat | i < |all| ensures LinkedAt(all, i) {
      assert if i < |front| then LeadsAt(front, first, i) else LinkedAt(rest, i - |front|);
    }
    forall i, j | 0 <= i < j < |all| ensures all[i] != all[j] {
      assert i < |front| ==> all[i] == front[i];
      assert j >= |front| ==> all[j] == rest[j - |front|];
    }
  }

  lemma JoinInserted(front: seq<ArgInfo>, first: ArgInfo, rest: seq<ArgInfo>, n: ArgInfo, freed: bool,
      rest': seq<ArgInfo>)
    requires LeadsTo(front, first) && rest' != [] && Linked(first, rest') && InsertedInto(rest, n, freed, rest')
    requires forall i | 0 <= i < |front| :: front[i] != n
    requires forall i, j | 0 <= i < |front| && 0 <= j < |rest| :: front[i] != rest[j]
    ensures Linked((front + rest')[0], front + rest')
    ensures Views(front + rest') == Views(front) + Views(rest')
  {
    forall i, j | 0 <= i < |front| && 0 <= j < |rest'| ensures front[i] != rest'[j] {
      assert rest'[j] in rest || rest'[j] == n;
    }
    JoinLists(front, first, rest');
  }

  lemma PlainParts(front: seq<Region>, rest: seq<Region>)
    ensures AllPlain(front + rest) ==> AllPlain(rest)
  {
    assert forall i | 0 <= i < |rest| :: rest[i] == (front + rest)[|front| + i];
  }

  lemma InsertPastHead(o: Region, tail: seq<Region>, r: Region)
    requires !r.IsArray() ==> AllPlain([o] + tail) && AllPlain(tail) && r.Plain()
    requires tail != [] && o.addr <= r.addr && tail[0].addr <= r.addr
    ensures Insert([o] + tail, r) == Insert(tail, r).Behind(o)
  {
    assert ([o] + tail)[1..] == tail;
  }

  /** The insertion leaves alone whatever comes before the last node that starts no later. */
  lemma {:induction false} InsertSkips(front: seq<Region>, rest: seq<Region>, r: Region)
    requires !r.IsArray() ==> AllPlain(front + rest) && AllPlain(rest) && r.Plain()
    requires rest != [] && rest[0].addr <= r.addr && forall i | 0 <= i < |front| :: front[i].addr <= r.addr
    ensures Insert(front + rest, r) == Insertion(front + Insert(rest, r).list, Insert(rest, r).freed)
  {
    if front != [] {
      var o, tail := front[0], front[1..] + rest;
      assert front + rest == [o] + tail;
      assert forall i | 0 <= i < |tail| :: tail[i] == (front + rest)[i + 1];
      InsertPastHead(o, tail, r);
      InsertSkips(front[1..], rest, r);
      assert [o] + (front[1..] + Insert(rest, r).list) == front + Insert(rest, r).list;
    } else {
      assert front + rest == rest;
      assert [] + Insert(rest, r).list == Insert(rest, r).list;
    }
  }
}
