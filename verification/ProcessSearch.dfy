/** The search of `electron/processCwd.ts` as it runs: a map of children, a queue and a set of visited
    processes. */
module ProcessSearch {
  import opened Common
  import opened ProcessTree

  function Get(table: seq<Row>, pid: int): (r: Option<Row>)
    ensures r == None <==> forall i :: 0 <= i < |table| ==> table[i].pid != pid
    ensures r.Some? ==> r.value in table && r.value.pid == pid
  {
    if table == [] then None else if table[0].pid == pid then Some(table[0]) else Get(table[1..], pid)
  }

  function Pids(rows: seq<Row>): seq<int> {
    seq(|rows|, k requires 0 <= k < |rows| => rows[k].pid)
  }

  function ChildrenOf(table: seq<Row>, pid: int, k: nat): seq<int>
    requires k <= |table|
  {
    if k == 0 then []
    else
      var before := ChildrenOf(table, pid, k - 1);
      if table[k - 1].ppid == pid then before + [table[k - 1].pid] else before
  }

  function Listing(children: map<int, seq<int>>, pid: int): seq<int> {
    if pid in children then children[pid] else []
  }

  ghost predicate Groups(children: map<int, seq<int>>, table: seq<Row>) {
    forall pid :: Listing(children, pid) == ChildrenOf(table, pid, |table|)
  }

  method GroupByParent(table: seq<Row>) returns (children: map<int, seq<int>>)
    ensures Groups(children, table)
  {
    children := map[];
    for i := 0 to |table|
      invariant forall pid :: Listing(children, pid) == ChildrenOf(table, pid, i)
    {
      var row := table[i];
      if row.ppid !in children {
        children := children[row.ppid := [row.pid]];
      } else {
        children := children[row.ppid := children[row.ppid] + [row.pid]];
      }
    }
  }

  function Unseen(pids: seq<int>, visited: set<int>): seq<int> {
    if pids == [] then []
    else
      var n := |pids| - 1;
      var before := Unseen(pids[..n], visited);
      if pids[n] in visited then before else before + [pids[n]]
  }

  lemma {:induction false} UnseenConcat(a: seq<int>, pid: int, visited: set<int>)
    ensures Unseen(a + [pid], visited)
            == if pid in visited then Unseen(a, visited) else Unseen(a, visited) + [pid]
  {
    assert (a + [pid])[..|a|] == a;
  }

  ghost predicate Marks(visited: set<int>, s: Search) {
    forall pid :: pid in visited <==> Visited(s, pid)
  }

  lemma PidsConcat(rows: seq<Row>, row: Row)
    ensures Pids(rows + [row]) == Pids(rows) + [row.pid]
  {
  }

  lemma NextChild(table: seq<Row>, s: Search, pid: int, visited: set<int>, k: nat)
    requires k < |table| && Marks(visited, s)
    requires Unseen(ChildrenOf(table, pid, k), visited) == Pids(Fresh(table, s, pid, k))
    ensures Unseen(ChildrenOf(table, pid, k + 1), visited) == Pids(Fresh(table, s, pid, k + 1))
  {
    var row := table[k];
    assert row.pid in visited <==> Visited(s, row.pid);
    if row.ppid == pid {
      UnseenConcat(ChildrenOf(table, pid, k), row.pid, visited);
      PidsConcat(Fresh(table, s, pid, k), row);
    }
  }

  lemma {:induction false} UnseenIsFresh(table: seq<Row>, s: Search, pid: int, visited: set<int>, k: nat)
    requires k <= |table| && Marks(visited, s)
    ensures Unseen(ChildrenOf(table, pid, k), visited) == Pids(Fresh(table, s, pid, k))
  {
    if k > 0 {
      UnseenIsFresh(table, s, pid, visited, k - 1);
      NextChild(table, s, pid, visited, k - 1);
    }
  }

  function SetOf(pids: seq<int>): set<int> {
    set pid | pid in pids
  }

  datatype Pending = Pending(pid: int, depth: nat)

  function Queue(s: Search): seq<Pending>
    requires s.head <= |s.found| + 1
  {
    seq(|s.found| + 1 - s.head,
        k requires 0 <= k < |s.found| + 1 - s.head => Pending(PidAt(s, s.head + k), DepthAt(s, s.head + k)))
  }

  function Handed(rows: seq<Row>, depth: nat): seq<Pending> {
    seq(|rows|, k requires 0 <= k < |rows| => Pending(rows[k].pid, depth))
  }

  lemma QueueMoves(table: seq<Row>, s: Search)
    requires s.head <= |s.found|
    ensures Queue(s)[0] == Pending(PidAt(s, s.head), DepthAt(s, s.head))
    ensures Expand(table, s).found == s.found + Entries(NextRows(table, s), DepthAt(s, s.head) + 1)
    ensures Queue(Expand(table, s)) == Queue(s)[1..] + Handed(NextRows(table, s), DepthAt(s, s.head) + 1)
  {
    var next, rows, n, depth := Expand(table, s), NextRows(table, s), |s.found|, DepthAt(s, s.head) + 1;
    var left, right := Queue(next), Queue(s)[1..] + Handed(rows, depth);
    forall k | 0 <= k < |left| ensures left[k] == right[k] {
      assert left[k] == Pending(PidAt(next, s.head + 1 + k), DepthAt(next, s.head + 1 + k));
      if s.head + k < n {
        assert right[k] == Queue(s)[k + 1] == Pending(PidAt(s, s.head + 1 + k), DepthAt(s, s.head + 1 + k));
        assert next.found[s.head + k] == s.found[s.head + k];
      } else {
        assert next.found[s.head + k] == Entry(rows[s.head + k - n], depth);
        assert right[k] == Handed(rows, depth)[s.head + k - n];
      }
    }
  }

  /** Visits the new children of one process. */
  method Visit(table: seq<Row>, next: seq<int>, depth: nat, ghost rows: seq<Row>,
               pending: seq<Pending>, visited: set<int>, found: seq<Entry>)
      returns (pending': seq<Pending>, visited': set<int>, found': seq<Entry>)
    requires Table(table) && next == Pids(rows) && forall row :: row in rows ==> row in table
    ensures found' == found + Entries(rows, depth)
    ensures visited' == visited + SetOf(next)
    ensures pending' == pending + Handed(rows, depth)
  {
    pending', visited', found' := pending, visited, found;
    for i := 0 to |next|
      invariant found' == found + Entries(rows, depth)[..i]
      invariant visited' == visited + SetOf(next[..i])
      invariant pending' == pending + Handed(rows, depth)[..i]
    {
      var pid := next[i];
      assert next[..i + 1] == next[..i] + [pid];
      assert rows[i] in rows;
      visited' := visited' + {pid};
      pending' := pending' + [Pending(pid, depth)];
      var row := Get(table, pid);
      if row.Some? {
        assert row.value == rows[i];
        found' := found' + [Entry(row.value, depth)];
      }
    }
  }

  lemma NextIsUnseen(table: seq<Row>, children: map<int, seq<int>>, s: Search, visited: set<int>)
    requires Groups(children, table) && s.head <= |s.found| && Marks(visited, s)
    ensures Unseen(Listing(children, PidAt(s, s.head)), visited) == Pids(NextRows(table, s))
    ensures forall row :: row in NextRows(table, s) ==> row in table
  {
    UnseenIsFresh(table, s, PidAt(s, s.head), visited, |table|);
    FreshMembers(table, s, PidAt(s, s.head), |table|);
  }

  /** One round of the search: the process at the head of the queue hands over its new children. */
  method Round(table: seq<Row>, children: map<int, seq<int>>, ghost s: Search,
               pending: seq<Pending>, visited: set<int>, found: seq<Entry>)
      returns (pending': seq<Pending>, visited': set<int>, found': seq<Entry>)
    requires Table(table) && Groups(children, table)
    requires s.head <= |s.found| && s.found == found && pending == Queue(s)
    requires Marks(visited, s) && |visited| == |found| + 1
    ensures var next := Expand(table, s);
      next.found == found' && pending' == Queue(next) && Marks(visited', next) && |visited'| == |found'| + 1
  {
    QueueMoves(table, s);
    var current := pending[0];
    var next := Unseen(Listing(children, current.pid), visited);
    NextIsUnseen(table, children, s, visited);
    SizeGrows(table, s, visited, next);
    pending', visited', found' :=
      Visit(table, next, current.depth + 1, NextRows(table, s), pending[1..], visited, found);
  }

  method ResolveSessionDescendants(root: int, table: seq<Row>) returns (found: seq<Entry>)
    requires Table(table)
    ensures found == Descendants(table, root)
  {
    var children := GroupByParent(table);
    var pending := [Pending(root, 0)];
    var visited := {root};
    found := [];
    ghost var s := Search(root, [], 0);
    while pending != [] && |visited| <= SESSION_PROCESS_LIMIT
      invariant s.head <= |s.found| + 1 && s.found == found && pending == Queue(s)
      invariant Marks(visited, s) && |visited| == |found| + 1
      invariant Run(table, s).found == Descendants(table, root)
      decreases Unvisited(table, s), |s.found| + 1 - s.head
    {
      Progress(table, s);
      pending, visited, found := Round(table, children, s, pending, visited, found);
      s := Expand(table, s);
    }
  }

  lemma Progress(table: seq<Row>, s: Search)
    requires s.head <= |s.found|
    ensures Unvisited(table, Expand(table, s)) <= Unvisited(table, s)
    ensures Unvisited(table, Expand(table, s)) == Unvisited(table, s) ==> Expand(table, s).found == s.found
  {
    VisitedGrows(table, s);
    assert NextRows(table, s) == [] ==> Expand(table, s).found == s.found;
  }

  lemma {:induction false} DistinctSize(pids: seq<int>)
    requires forall i, j :: 0 <= i < j < |pids| ==> pids[i] != pids[j]
    ensures |SetOf(pids)| == |pids|
  {
    if pids != [] {
      var n := |pids| - 1;
      DistinctSize(pids[..n]);
      assert SetOf(pids) == SetOf(pids[..n]) + {pids[n]};
    }
  }

  lemma SetOfPids(rows: seq<Row>, pid: int)
    ensures pid in SetOf(Pids(rows)) <==> exists row :: row in rows && row.pid == pid
  {
    var pids := Pids(rows);
    if pid in SetOf(pids) {
      var k :| 0 <= k < |pids| && pids[k] == pid;
      assert rows[k] in rows && rows[k].pid == pid;
    }
    if row :| row in rows && row.pid == pid {
      var k :| 0 <= k < |rows| && rows[k] == row;
      assert pids[k] == pid;
    }
  }

  lemma SizeGrows(table: seq<Row>, s: Search, visited: set<int>, next: seq<int>)
    requires Table(table) && s.head <= |s.found| && Marks(visited, s) && next == Pids(NextRows(table, s))
    ensures |visited + SetOf(next)| == |visited| + |next|
    ensures Marks(visited + SetOf(next), Expand(table, s))
  {
    var rows := NextRows(table, s);
    FreshIsDistinct(table, s, PidAt(s, s.head), |table|);
    DistinctSize(next);
    FreshMembers(table, s, PidAt(s, s.head), |table|);
    VisitedGrows(table, s);
    forall pid ensures pid in SetOf(next) <==> exists row :: row in rows && row.pid == pid {
      SetOfPids(rows, pid);
    }
    assert visited !! SetOf(next);
  }
}
