/** CPU time over a process and all its descendants, read off one process listing. */
module ProcessTree {
  import opened Wrappers

  datatype Row = Row(pid: int, ppid: int, seconds: real)

  // A later row for the same pid replaces the earlier one's time.
  function CpuOf(rows: seq<Row>): map<int, real> {
    if rows == [] then map[] else CpuOf(rows[..|rows| - 1])[rows[|rows| - 1].pid := rows[|rows| - 1].seconds]
  }

  // The pids whose rows name `parent` as their parent, in listing order.
  function ChildrenOf(rows: seq<Row>, parent: int): (pids: seq<int>) {
    if rows == [] then []
    else
      var last := rows[|rows| - 1];
      ChildrenOf(rows[..|rows| - 1], parent) + if last.ppid == parent then [last.pid] else []
  }

  predicate Edge(rows: seq<Row>, parent: int, child: int) {
    child in ChildrenOf(rows, parent)
  }

  /** An edge is a row of the listing. */
  lemma {:induction false} EdgeIsRow(rows: seq<Row>, parent: int, child: int)
    ensures Edge(rows, parent, child) <==> exists i :: 0 <= i < |rows| && rows[i].ppid == parent && rows[i].pid == child
  {
    if rows != [] {
      var last := |rows| - 1;
      EdgeIsRow(rows[..last], parent, child);
      assert forall i :: 0 <= i < last ==> rows[..last][i] == rows[i];
    }
  }

  // A line of descent from `root` to `pid`.
  predicate Descent(rows: seq<Row>, root: int, pid: int, line: seq<int>) {
    && |line| > 0 && line[0] == root && line[|line| - 1] == pid
    && forall i :: 0 <= i < |line| - 1 ==> Edge(rows, line[i], line[i + 1])
  }

  ghost predicate Descendant(rows: seq<Row>, root: int, pid: int) {
    exists line :: Descent(rows, root, pid, line)
  }

  // Exactly the root and its descendants.
  ghost predicate IsTree(rows: seq<Row>, root: int, tree: set<int>) {
    forall pid :: pid in tree <==> Descendant(rows, root, pid)
  }

  // ---------------------------------------------------------------- sums

  // The pids of a listing, each once.
  function Pids(rows: seq<Row>): (pids: seq<int>)
    ensures NoRepeats(pids)
    ensures forall p :: p in pids <==> p in CpuOf(rows)
  {
    if rows == [] then []
    else
      var before, pid := Pids(rows[..|rows| - 1]), rows[|rows| - 1].pid;
      if pid in before then before else before + [pid]
  }

  function Time(cpu: map<int, real>, pid: int): real {
    if pid in cpu then cpu[pid] else 0.0
  }

  // The time of the processes in `s`, each counted once.
  function Sum(pids: seq<int>, s: set<int>, cpu: map<int, real>): real {
    if pids == [] then 0.0
    else
      var last := pids[|pids| - 1];
      Sum(pids[..|pids| - 1], s, cpu) + if last in s then Time(cpu, last) else 0.0
  }

  lemma {:induction false} SumWith(pids: seq<int>, s: set<int>, cpu: map<int, real>, q: int)
    requires NoRepeats(pids) && q !in s
    ensures Sum(pids, s + {q}, cpu) == Sum(pids, s, cpu) + if q in pids then Time(cpu, q) else 0.0
  {
    if pids != [] {
      var front := pids[..|pids| - 1];
      assert pids == front + [pids[|pids| - 1]];
      SumWith(front, s, cpu, q);
    }
  }

  lemma {:induction false} SumOfNone(pids: seq<int>, cpu: map<int, real>)
    ensures Sum(pids, {}, cpu) == 0.0
  {
    if pids != [] {
      SumOfNone(pids[..|pids| - 1], cpu);
    }
  }

  // What the rows themselves say of the processes in `s`: of each, the seconds of its last row.
  function Seconds(rows: seq<Row>, s: set<int>): real {
    if rows == [] then 0.0
    else
      var last := rows[|rows| - 1];
      if last.pid in s then Seconds(rows[..|rows| - 1], s - {last.pid}) + last.seconds
      else Seconds(rows[..|rows| - 1], s)
  }

  lemma {:induction false} SumOfOthers(pids: seq<int>, s: set<int>, cpu: map<int, real>, q: int, seconds: real)
    requires q !in s
    ensures Sum(pids, s, cpu) == Sum(pids, s, cpu[q := seconds])
  {
    if pids != [] {
      SumOfOthers(pids[..|pids| - 1], s, cpu, q, seconds);
    }
  }

  /** Adding up the times on record is adding up the seconds in the rows, the last row of
      each process and no other. */
  lemma {:induction false} SumIsSeconds(rows: seq<Row>, s: set<int>)
    ensures Sum(Pids(rows), s, CpuOf(rows)) == Seconds(rows, s)
  {
    if rows != [] {
      var front, last := rows[..|rows| - 1], rows[|rows| - 1];
      var others := s - {last.pid};
      SumIsSeconds(front, others);
      SumOfOthers(Pids(front), others, CpuOf(front), last.pid, last.seconds);
      SumWith(Pids(rows), others, CpuOf(rows), last.pid);
      assert s == if last.pid in s then others + {last.pid} else others;
      assert Sum(Pids(rows), others, CpuOf(rows)) == Sum(Pids(front), others, CpuOf(rows)) by {
        assert Pids(rows) == Pids(front) || Pids(rows)[..|Pids(rows)| - 1] == Pids(front);
      }
    }
  }

  lemma {:induction false} ListedIsRow(rows: seq<Row>, pid: int)
    ensures pid in CpuOf(rows) <==> Listed(rows, pid)
  {
    if rows != [] {
      var last := |rows| - 1;
      ListedIsRow(rows[..last], pid);
      assert forall i :: 0 <= i < last ==> rows[..last][i] == rows[i];
      assert Listed(rows[..last], pid) ==> Listed(rows, pid);
    }
  }

  ghost predicate Listed(rows: seq<Row>, pid: int) {
    exists i :: 0 <= i < |rows| && rows[i].pid == pid
  }

  // ---------------------------------------------------------------- descent

  lemma RootDescends(rows: seq<Row>, root: int)
    ensures Descendant(rows, root, root)
  {
    assert Descent(rows, root, root, [root]);
  }

  lemma ChildDescends(rows: seq<Row>, root: int, pid: int, child: int)
    requires Descendant(rows, root, pid) && Edge(rows, pid, child)
    ensures Descendant(rows, root, child)
  {
    var line :| Descent(rows, root, pid, line);
    assert Descent(rows, root, child, line + [child]);
  }

  // A set that holds the root and all children of its members holds every descendant.
  lemma {:induction false} ClosedHoldsLine(rows: seq<Row>, root: int, s: set<int>, line: seq<int>, i: nat)
    requires root in s && forall p, c :: p in s && Edge(rows, p, c) ==> c in s
    requires i < |line| && line[0] == root && forall k :: 0 <= k < |line| - 1 ==> Edge(rows, line[k], line[k + 1])
    ensures line[i] in s
  {
    if i > 0 {
      ClosedHoldsLine(rows, root, s, line, i - 1);
      assert Edge(rows, line[i - 1], line[i - 1 + 1]);
    }
  }

  lemma ClosedHoldsDescendants(rows: seq<Row>, root: int, s: set<int>)
    requires root in s && forall p, c :: p in s && Edge(rows, p, c) ==> c in s
    ensures forall pid :: Descendant(rows, root, pid) ==> pid in s
  {
    forall pid | Descendant(rows, root, pid) ensures pid in s {
      var line :| Descent(rows, root, pid, line);
      ClosedHoldsLine(rows, root, s, line, |line| - 1);
    }
  }

  // ---------------------------------------------------------------- the walk

  function Lookup(children: map<int, seq<int>>, parent: int): seq<int> {
    if parent in children then children[parent] else []
  }

  ghost predicate Indexed(rows: seq<Row>, children: map<int, seq<int>>) {
    forall p :: Lookup(children, p) == ChildrenOf(rows, p)
  }

  lemma LookupIs(rows: seq<Row>, children: map<int, seq<int>>, p: int)
    requires Indexed(rows, children)
    ensures Lookup(children, p) == ChildrenOf(rows, p)
  {
  }

  // Child lists in listing order, and the time of each pid.
  method Index(rows: seq<Row>) returns (children: map<int, seq<int>>, cpu: map<int, real>)
    ensures cpu == CpuOf(rows)
    ensures Indexed(rows, children)
  {
    children, cpu := map[], map[];
    for i := 0 to |rows|
      invariant cpu == CpuOf(rows[..i])
      invariant forall p :: Lookup(children, p) == ChildrenOf(rows[..i], p)
    {
      assert rows[..i + 1][..i] == rows[..i];
      var row := rows[i];
      cpu := cpu[row.pid := row.seconds];
      children := children[row.ppid := Lookup(children, row.ppid) + [row.pid]];
    }
    assert rows[..|rows|] == rows;
  }

  lemma {:induction false} ChildrenHaveRows(rows: seq<Row>, parent: int)
    ensures forall c :: c in ChildrenOf(rows, parent) ==> c in CpuOf(rows)
  {
    if rows != [] {
      ChildrenHaveRows(rows[..|rows| - 1], parent);
    }
  }

  ghost predicate Counted(rows: seq<Row>, root: int, pid: int) {
    pid in CpuOf(rows) && Descendant(rows, root, pid)
  }

  // What the walk has established: everything pushed or counted descends from the root,
  // and the children of everything counted have been pushed.
  ghost predicate Walking(rows: seq<Row>, root: int, stack: seq<int>, visited: set<int>) {
    && (forall i :: 0 <= i < |stack| ==> Counted(rows, root, stack[i]))
    && (forall p :: p in visited ==> Counted(rows, root, p))
    && (root in visited || root in stack)
    && (forall p, c :: p in visited && Edge(rows, p, c) ==> c in visited || c in stack)
  }

  lemma SkipVisited(rows: seq<Row>, root: int, stack: seq<int>, visited: set<int>)
    requires Walking(rows, root, stack, visited) && stack != [] && stack[|stack| - 1] in visited
    ensures Walking(rows, root, stack[..|stack| - 1], visited)
  {
    var rest := stack[..|stack| - 1];
    assert stack == rest + [stack[|stack| - 1]];
  }

  lemma Expand(rows: seq<Row>, root: int, stack: seq<int>, visited: set<int>)
    requires Walking(rows, root, stack, visited) && stack != []
    ensures var pid := stack[|stack| - 1];
      pid in CpuOf(rows) && Walking(rows, root, stack[..|stack| - 1] + ChildrenOf(rows, pid), visited + {pid})
  {
    var rest, pid := stack[..|stack| - 1], stack[|stack| - 1];
    assert stack == rest + [pid];
    ChildrenHaveRows(rows, pid);
    forall c | c in ChildrenOf(rows, pid) ensures Descendant(rows, root, c) {
      ChildDescends(rows, root, pid, c);
    }
  }

  lemma WalkDone(rows: seq<Row>, root: int, visited: set<int>, total: real)
    requires Walking(rows, root, [], visited) && Added(rows, visited, total)
    ensures IsTree(rows, root, visited) && total == Seconds(rows, visited)
  {
    ClosedHoldsDescendants(rows, root, visited);
    SumIsSeconds(rows, visited);
  }

  /** The stack walk adds up the time of exactly the processes that descend from the root,
      the root included, each of them once - also when parent rows repeat or form a cycle. */
  method WalkTree(root: int, children: map<int, seq<int>>, cpu: map<int, real>, ghost rows: seq<Row>)
    returns (total: real, ghost tree: set<int>)
    requires cpu == CpuOf(rows) && root in cpu && Indexed(rows, children)
    ensures IsTree(rows, root, tree) && total == Seconds(rows, tree)
  {
    total := 0.0;
    var stack := [root];
    var visited: set<int> := {};
    Start(rows, root);
    hide Walking, Added, IsTree, Indexed, CpuOf, Lookup, Sum, Seconds, Edge, ChildrenOf;
    while stack != []
      invariant Walking(rows, root, stack, visited) && Added(rows, visited, total)
      decreases |cpu.Keys - visited|, |stack|
    {
      var pid := stack[|stack| - 1];
      var rest := stack[..|stack| - 1];
      if pid in visited {
        SkipVisited(rows, root, stack, visited);
        stack := rest;
      } else {
        Expand(rows, root, stack, visited);
        AddNext(rows, visited, total, pid);
        LookupIs(rows, children, pid);
        visited := visited + {pid};
        total := total + Time(cpu, pid);
        stack := rest + Lookup(children, pid);
      }
    }
    tree := visited;
    WalkDone(rows, root, tree, total);
  }

  lemma Start(rows: seq<Row>, root: int)
    requires root in CpuOf(rows)
    ensures Walking(rows, root, [root], {}) && Added(rows, {}, 0.0)
  {
    RootDescends(rows, root);
    SumOfNone(Pids(rows), CpuOf(rows));
  }

  ghost predicate Added(rows: seq<Row>, visited: set<int>, total: real) {
    visited <= CpuOf(rows).Keys && total == Sum(Pids(rows), visited, CpuOf(rows))
  }

  lemma AddNext(rows: seq<Row>, visited: set<int>, total: real, pid: int)
    requires Added(rows, visited, total) && pid in CpuOf(rows) && pid !in visited
    ensures Added(rows, visited + {pid}, total + Time(CpuOf(rows), pid))
    ensures |CpuOf(rows).Keys - (visited + {pid})| < |CpuOf(rows).Keys - visited|
  {
    SumWith(Pids(rows), visited, CpuOf(rows), pid);
    assert CpuOf(rows).Keys - visited == (CpuOf(rows).Keys - (visited + {pid})) + {pid};
  }

  // The answer for a listing: what the tree adds up to, or the process's own time when the
  // listing is empty or does not know the root.
  ghost predicate TreeTime(rows: seq<Row>, root: int, direct: real, total: real) {
    if Listed(rows, root) then exists tree :: IsTree(rows, root, tree) && total == Seconds(rows, tree)
    else total == direct
  }

  method ProcessTreeCpuSeconds(root: int, rows: seq<Row>, direct: real) returns (total: real)
    ensures TreeTime(rows, root, direct, total)
  {
    if rows == [] {
      return direct;
    }
    var children, cpu := Index(rows);
    ListedIsRow(rows, root);
    if root !in cpu {
      return direct;
    }
    ghost var tree;
    total, tree := WalkTree(root, children, cpu, rows);
    assert IsTree(rows, root, tree);
  }

  /** The answer is determined by the listing: there is only one. */
  lemma TreeTimeUnique(rows: seq<Row>, root: int, direct: real, a: real, b: real)
    requires TreeTime(rows, root, direct, a) && TreeTime(rows, root, direct, b)
    ensures a == b
  {
    if Listed(rows, root) {
      var s :| IsTree(rows, root, s) && a == Seconds(rows, s);
      var t :| IsTree(rows, root, t) && b == Seconds(rows, t);
      assert forall pid :: pid in s <==> pid in t;
      assert s == t;
    }
  }
}
