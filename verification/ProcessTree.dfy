/** The bounded breadth-first search of `electron/processCwd.ts` over a table of processes that name
    their parents. */
module ProcessTree {
  datatype Row = Row(pid: int, ppid: int, pgid: int, foreground: bool, command: string)

  /** A process found by the search. */
  datatype Entry = Entry(row: Row, depth: nat)

  const SESSION_PROCESS_LIMIT := 64

  /** A host table has one row for a process. */
  ghost predicate Table(table: seq<Row>) {
    forall i, j :: 0 <= i < j < |table| ==> table[i].pid != table[j].pid
  }

  /** A process is `d` parent steps below the root, and no parent on the way is the root. */
  ghost predicate Below(table: seq<Row>, root: int, pid: int, d: nat)
    decreases d
  {
    if d == 0 then pid == root
    else pid != root && exists row :: row in table && row.pid == pid && Below(table, root, row.ppid, d - 1)
  }

  lemma {:induction false} OneDistance(table: seq<Row>, root: int, pid: int, d: nat, e: nat)
    requires Table(table) && Below(table, root, pid, d) && Below(table, root, pid, e)
    ensures d == e
    decreases d
  {
    if d > 0 && e > 0 {
      var a :| a in table && a.pid == pid && Below(table, root, a.ppid, d - 1);
      var b :| b in table && b.pid == pid && Below(table, root, b.ppid, e - 1);
      assert a == b;
      OneDistance(table, root, a.ppid, d - 1, e - 1);
    }
  }

  // ---- The search: a list of visited processes with a head that moves along it ----

  /** The root and then the processes found, in the order they were visited. The first `head` of the
      list have been expanded and the others are pending. */
  datatype Search = Search(root: int, found: seq<Entry>, head: nat)

  function PidAt(s: Search, k: nat): int
    requires k <= |s.found|
  {
    if k == 0 then s.root else s.found[k - 1].row.pid
  }

  function DepthAt(s: Search, k: nat): nat
    requires k <= |s.found|
  {
    if k == 0 then 0 else s.found[k - 1].depth
  }

  predicate Visited(s: Search, pid: int) {
    pid == s.root || exists k :: 0 <= k < |s.found| && s.found[k].row.pid == pid
  }

  /** The children of a process not visited yet, among the first `k` rows. */
  function Fresh(table: seq<Row>, s: Search, pid: int, k: nat): (r: seq<Row>)
    requires k <= |table|
  {
    if k == 0 then []
    else
      var row, before := table[k - 1], Fresh(table, s, pid, k - 1);
      if row.ppid == pid && !Visited(s, row.pid) then before + [row] else before
  }

  lemma {:induction false} FreshMembers(table: seq<Row>, s: Search, pid: int, k: nat)
    requires k <= |table|
    ensures forall row :: row in Fresh(table, s, pid, k) ==> row in table && row.ppid == pid && !Visited(s, row.pid)
    ensures forall i :: 0 <= i < k && table[i].ppid == pid && !Visited(s, table[i].pid) ==>
              table[i] in Fresh(table, s, pid, k)
  {
    if k > 0 {
      FreshMembers(table, s, pid, k - 1);
    }
  }

  lemma {:induction false} FreshIsDistinct(table: seq<Row>, s: Search, pid: int, k: nat)
    requires k <= |table| && Table(table)
    ensures Table(Fresh(table, s, pid, k))
    ensures forall row :: row in Fresh(table, s, pid, k) ==> exists i :: 0 <= i < k && table[i] == row
  {
    if k > 0 {
      FreshIsDistinct(table, s, pid, k - 1);
      var before := Fresh(table, s, pid, k - 1);
      forall i | 0 <= i < |before| ensures before[i].pid != table[k - 1].pid {
        assert before[i] in before;
      }
    }
  }

  function Entries(rows: seq<Row>, depth: nat): seq<Entry> {
    seq(|rows|, k requires 0 <= k < |rows| => Entry(rows[k], depth))
  }

  predicate Goes(s: Search) {
    s.head <= |s.found| && |s.found| + 1 <= SESSION_PROCESS_LIMIT
  }

  function NextRows(table: seq<Row>, s: Search): seq<Row>
    requires s.head <= |s.found|
  {
    Fresh(table, s, PidAt(s, s.head), |table|)
  }

  function Expand(table: seq<Row>, s: Search): Search
    requires s.head <= |s.found|
  {
    Search(s.root, s.found + Entries(NextRows(table, s), DepthAt(s, s.head) + 1), s.head + 1)
  }

  ghost function Unvisited(table: seq<Row>, s: Search): set<Row> {
    set row | row in table && !Visited(s, row.pid)
  }

  lemma VisitedGrows(table: seq<Row>, s: Search)
    requires s.head <= |s.found|
    ensures forall pid :: Visited(Expand(table, s), pid) <==>
              Visited(s, pid) || exists row :: row in NextRows(table, s) && row.pid == pid
    ensures Unvisited(table, Expand(table, s)) <= Unvisited(table, s)
    ensures NextRows(table, s) != [] ==> Unvisited(table, Expand(table, s)) < Unvisited(table, s)
  {
    var rows, next := NextRows(table, s), Expand(table, s);
    FreshMembers(table, s, PidAt(s, s.head), |table|);
    forall pid | Visited(s, pid) ensures Visited(next, pid) {
      if pid != s.root {
        var k :| 0 <= k < |s.found| && s.found[k].row.pid == pid;
        assert next.found[k].row.pid == pid;
      }
    }
    forall k | 0 <= k < |rows| ensures Visited(next, rows[k].pid) {
      assert next.found[|s.found| + k].row == rows[k];
    }
    if rows != [] {
      assert rows[0] in Unvisited(table, s) && rows[0] !in Unvisited(table, next);
    }
  }

  function Run(table: seq<Row>, s: Search): Search
    decreases Unvisited(table, s), |s.found| + 1 - s.head
  {
    if !Goes(s) then s
    else
      VisitedGrows(table, s);
      assert NextRows(table, s) == [] ==> Expand(table, s).found == s.found;
      Run(table, Expand(table, s))
  }

  function Descendants(table: seq<Row>, root: int): seq<Entry> {
    Run(table, Search(root, [], 0)).found
  }

  // ---- What the search finds ----

  ghost predicate TrueDepths(table: seq<Row>, s: Search) {
    forall k :: 0 <= k < |s.found| ==>
      && s.found[k].row in table && s.found[k].depth >= 1
      && Below(table, s.root, s.found[k].row.pid, s.found[k].depth)
  }

  ghost predicate Distinct(found: seq<Entry>) {
    forall i, j :: 0 <= i < j < |found| ==> found[i].row.pid != found[j].row.pid
  }

  /** Nearest first, and never more than one step deeper than the last process expanded. */
  ghost predicate Level(s: Search) {
    && (forall i, j :: 0 <= i < j < |s.found| ==> s.found[i].depth <= s.found[j].depth)
    && s.head <= |s.found| + 1
    && (forall k :: 0 <= k < |s.found| ==> s.head > 0 && s.found[k].depth <= DepthAt(s, s.head - 1) + 1)
  }

  ghost predicate Expanded(table: seq<Row>, s: Search)
    requires s.head <= |s.found| + 1
  {
    forall k, i :: 0 <= k < s.head && 0 <= i < |table| && table[i].ppid == PidAt(s, k) ==> Visited(s, table[i].pid)
  }

  ghost predicate Good(table: seq<Row>, s: Search) {
    TrueDepths(table, s) && Distinct(s.found) && Level(s) && Expanded(table, s)
  }

  lemma ExpandTrueDepths(table: seq<Row>, s: Search)
    requires TrueDepths(table, s) && s.head <= |s.found|
    ensures TrueDepths(table, Expand(table, s))
  {
    var next, rows, d := Expand(table, s), NextRows(table, s), DepthAt(s, s.head);
    FreshMembers(table, s, PidAt(s, s.head), |table|);
    assert Below(table, s.root, PidAt(s, s.head), d);
    forall k | 0 <= k < |next.found|
      ensures next.found[k].row in table && next.found[k].depth >= 1
              && Below(table, s.root, next.found[k].row.pid, next.found[k].depth)
    {
      if k >= |s.found| {
        var row := rows[k - |s.found|];
        assert row in rows && next.found[k] == Entry(row, d + 1);
        assert row in table && Below(table, s.root, row.ppid, d);
      }
    }
  }

  lemma ExpandDistinct(table: seq<Row>, s: Search)
    requires Table(table) && Distinct(s.found) && s.head <= |s.found|
    ensures Distinct(Expand(table, s).found)
  {
    var next, rows, n := Expand(table, s).found, NextRows(table, s), |s.found|;
    FreshMembers(table, s, PidAt(s, s.head), |table|);
    FreshIsDistinct(table, s, PidAt(s, s.head), |table|);
    forall i, j | 0 <= i < j < |next| ensures next[i].row.pid != next[j].row.pid {
      if j >= n {
        assert next[j].row == rows[j - n] && rows[j - n] in rows;
        if i >= n {
          assert next[i].row == rows[i - n];
        }
      }
    }
  }

  lemma ExpandExpanded(table: seq<Row>, s: Search)
    requires s.head <= |s.found| && Expanded(table, s)
    ensures Expanded(table, Expand(table, s))
  {
    VisitedGrows(table, s);
    FreshMembers(table, s, PidAt(s, s.head), |table|);
    var next := Expand(table, s);
    forall k, i | 0 <= k < next.head && 0 <= i < |table| && table[i].ppid == PidAt(next, k)
      ensures Visited(next, table[i].pid)
    {
      assert PidAt(next, k) == PidAt(s, k);
      if k == s.head && !Visited(s, table[i].pid) {
        assert table[i] in NextRows(table, s);
      }
    }
  }

  lemma ExpandLevel(table: seq<Row>, s: Search)
    requires s.head <= |s.found| && Level(s)
    ensures Level(Expand(table, s))
  {
    var next, n := Expand(table, s), |s.found|;
    assert DepthAt(next, s.head) == DepthAt(s, s.head);
    assert s.head > 0 ==> DepthAt(s, s.head - 1) <= DepthAt(s, s.head);
    assert forall k :: n <= k < |next.found| ==> next.found[k].depth == DepthAt(s, s.head) + 1;
  }

  lemma {:induction false} RunIsGood(table: seq<Row>, s: Search)
    requires Table(table) && Good(table, s)
    ensures Good(table, Run(table, s)) && !Goes(Run(table, s)) && Run(table, s).root == s.root
    decreases Unvisited(table, s), |s.found| + 1 - s.head
  {
    if Goes(s) {
      VisitedGrows(table, s);
      assert NextRows(table, s) == [] ==> Expand(table, s).found == s.found;
      ExpandTrueDepths(table, s);
      ExpandDistinct(table, s);
      ExpandLevel(table, s);
      ExpandExpanded(table, s);
      RunIsGood(table, Expand(table, s));
    }
  }

  predicate Listed(found: seq<Entry>, pid: int) {
    exists k :: 0 <= k < |found| && found[k].row.pid == pid
  }

  /** Each descendant is listed once, with its true distance, nearest first. */
  lemma DescendantsAreTrue(table: seq<Row>, root: int)
    requires Table(table)
    ensures var found := Descendants(table, root);
      && Distinct(found)
      && (forall k :: 0 <= k < |found| ==>
            found[k].row in table && found[k].row.pid != root
            && Below(table, root, found[k].row.pid, found[k].depth))
      && (forall i, j :: 0 <= i < j < |found| ==> found[i].depth <= found[j].depth)
  {
    RunIsGood(table, Search(root, [], 0));
  }

  /** A process the search missed has a parent no closer than the last one expanded. */
  lemma {:induction false} MissedIsDeep(table: seq<Row>, s: Search, pid: int, d: nat)
    requires Table(table) && Good(table, s) && Below(table, s.root, pid, d) && !Visited(s, pid)
    ensures s.head <= |s.found| && d > 0
    ensures forall k :: 0 <= k < |s.found| ==> s.found[k].depth <= d
    decreases d
  {
    if d > 0 {
      var row :| row in table && row.pid == pid && Below(table, s.root, row.ppid, d - 1);
      if Visited(s, row.ppid) {
        MissedChild(table, s, row, d - 1);
      } else {
        MissedIsDeep(table, s, row.ppid, d - 1);
      }
    }
  }

  lemma MissedChild(table: seq<Row>, s: Search, row: Row, d: nat)
    requires Table(table) && Good(table, s) && row in table && Visited(s, row.ppid) && !Visited(s, row.pid)
    requires Below(table, s.root, row.ppid, d)
    ensures s.head <= |s.found|
    ensures forall k :: 0 <= k < |s.found| ==> s.found[k].depth <= d + 1
  {
    var j := if row.ppid == s.root then 0 else
      var k :| 0 <= k < |s.found| && s.found[k].row.pid == row.ppid; k + 1;
    var i :| 0 <= i < |table| && table[i] == row;
    assert PidAt(s, j) == row.ppid;
    assert j >= s.head;
    assert DepthAt(s, j) == d by {
      DepthIsTrue(table, s, j, d);
    }
    assert s.head > 0 ==> DepthAt(s, s.head - 1) <= DepthAt(s, j);
  }

  lemma DepthIsTrue(table: seq<Row>, s: Search, j: nat, d: nat)
    requires Table(table) && TrueDepths(table, s) && j <= |s.found| && Below(table, s.root, PidAt(s, j), d)
    ensures DepthAt(s, j) == d
  {
    OneDistance(table, s.root, PidAt(s, j), d, DepthAt(s, j));
  }

  /** The search misses a process only after finding at least as many as the limit allows, and then it is at
      least as deep as every process found. */
  lemma MissedOnlyBeyondTheLimit(table: seq<Row>, root: int, pid: int, d: nat)
    requires Table(table) && Below(table, root, pid, d) && d > 0 && !Listed(Descendants(table, root), pid)
    ensures |Descendants(table, root)| + 1 > SESSION_PROCESS_LIMIT
    ensures forall k :: 0 <= k < |Descendants(table, root)| ==> Descendants(table, root)[k].depth <= d
  {
    var s := Run(table, Search(root, [], 0));
    RunIsGood(table, Search(root, [], 0));
    MissedIsDeep(table, s, pid, d);
  }

  lemma {:induction false} DistinctFit(found: seq<Entry>, root: int, tree: set<int>)
    requires Distinct(found) && root in tree
    requires forall k :: 0 <= k < |found| ==> found[k].row.pid in tree && found[k].row.pid != root
    ensures |found| < |tree|
  {
    if found != [] {
      var n := |found| - 1;
      assert forall k :: 0 <= k < n ==> found[k].row.pid != found[n].row.pid;
      DistinctFit(found[..n], root, tree - {found[n].row.pid});
    }
  }

  /** The list is complete when the whole tree has no more processes than the limit. */
  lemma CompleteWithinTheLimit(table: seq<Row>, root: int, tree: set<int>, pid: int, d: nat)
    requires Table(table) && forall p, k: nat :: Below(table, root, p, k) ==> p in tree
    requires |tree| <= SESSION_PROCESS_LIMIT && Below(table, root, pid, d) && d > 0
    ensures Listed(Descendants(table, root), pid)
  {
    DescendantsAreTrue(table, root);
    assert Below(table, root, root, 0);
    DistinctFit(Descendants(table, root), root, tree);
    if !Listed(Descendants(table, root), pid) {
      MissedOnlyBeyondTheLimit(table, root, pid, d);
    }
  }
}
