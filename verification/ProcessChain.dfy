/** When the candidates of `electron/processCwd.ts` form one chain of wrappers, and the walk that finds
    its end. */
module ProcessChain {
  import opened Common
  import opened ProcessTree

  /** Entries as the search lists them: one for a process, and a child one step below its parent. */
  ghost predicate Ranked(entries: seq<Entry>) {
    && Distinct(entries)
    && (forall e, p :: e in entries && p in entries && e.row.ppid == p.row.pid ==> e.depth == p.depth + 1)
  }

  predicate Linked(chain: seq<Entry>) {
    forall k :: 0 < k < |chain| ==> chain[k].row.ppid == chain[k - 1].row.pid
  }

  /** The entries are one chain of two or more, each the parent of the next. */
  ghost predicate IsChain(entries: seq<Entry>, chain: seq<Entry>) {
    |chain| >= 2 && Linked(chain) && forall e :: e in chain <==> e in entries
  }

  predicate HasParent(entries: seq<Entry>, e: Entry) {
    exists p :: p in entries && p.row.pid == e.row.ppid
  }

  predicate HasChild(entries: seq<Entry>, e: Entry) {
    exists c :: c in entries && c.row.ppid == e.row.pid
  }

  lemma SameEntry(entries: seq<Entry>, a: Entry, b: Entry)
    requires Distinct(entries) && a in entries && b in entries && a.row.pid == b.row.pid
    ensures a == b
  {
  }

  lemma {:induction false} ChainDepth(entries: seq<Entry>, chain: seq<Entry>, k: nat)
    requires Ranked(entries) && Linked(chain) && k < |chain| && forall e :: e in chain ==> e in entries
    ensures chain[k].depth == chain[0].depth + k
  {
    if k > 0 {
      ChainDepth(entries, chain, k - 1);
      assert chain[k] in chain && chain[k - 1] in chain;
    }
  }

  lemma ChainLink(entries: seq<Entry>, chain: seq<Entry>, p: Entry, e: Entry) returns (k: nat)
    requires Ranked(entries) && IsChain(entries, chain)
    requires p in entries && e in entries && e.row.ppid == p.row.pid
    ensures k + 1 < |chain| && p == chain[k] && e == chain[k + 1]
  {
    k :| 0 <= k < |chain| && chain[k] == p;
    var i :| 0 <= i < |chain| && chain[i] == e;
    ChainDepth(entries, chain, k);
    ChainDepth(entries, chain, i);
  }

  lemma ChainStart(entries: seq<Entry>, chain: seq<Entry>, e: Entry)
    requires Ranked(entries) && IsChain(entries, chain) && e in entries
    ensures HasParent(entries, e) <==> e != chain[0]
  {
    var k :| 0 <= k < |chain| && chain[k] == e;
    if k > 0 {
      assert chain[k - 1] in chain;
    }
    ChainDepth(entries, chain, k);
    if HasParent(entries, e) {
      var p :| p in entries && p.row.pid == e.row.ppid;
      var i := ChainLink(entries, chain, p, e);
      ChainDepth(entries, chain, i + 1);
    }
  }

  lemma ChainEnd(entries: seq<Entry>, chain: seq<Entry>, e: Entry)
    requires Ranked(entries) && IsChain(entries, chain) && e in entries
    ensures HasChild(entries, e) <==> e != chain[|chain| - 1]
  {
    var k :| 0 <= k < |chain| && chain[k] == e;
    if k + 1 < |chain| {
      assert chain[k + 1] in chain;
    }
    ChainDepth(entries, chain, k);
    ChainDepth(entries, chain, |chain| - 1);
    if HasChild(entries, e) {
      var c :| c in entries && c.row.ppid == e.row.pid;
      var i := ChainLink(entries, chain, e, c);
      ChainDepth(entries, chain, i);
    }
  }

  lemma ChainNarrow(entries: seq<Entry>, chain: seq<Entry>, p: Entry, a: Entry, b: Entry)
    requires Ranked(entries) && IsChain(entries, chain) && p in entries && a in entries && b in entries
    requires a.row.ppid == b.row.ppid == p.row.pid
    ensures a == b
  {
    var i := ChainLink(entries, chain, p, a);
    var j := ChainLink(entries, chain, p, b);
    ChainDepth(entries, chain, i);
    ChainDepth(entries, chain, j);
  }

  /** Whoever names a chain member as parent is the next member. */
  ghost predicate Follows(entries: seq<Entry>, chain: seq<Entry>, k: nat)
    requires k < |chain|
  {
    forall x :: x in entries && x.row.ppid == chain[k].row.pid ==> k + 1 < |chain| && x == chain[k + 1]
  }

  /** A walk from the only entry without a parent, with no branch so far. */
  ghost predicate Path(entries: seq<Entry>, chain: seq<Entry>) {
    && chain != [] && Linked(chain)
    && (forall x :: x in chain ==> x in entries)
    && (forall x :: x in entries && !HasParent(entries, x) ==> x == chain[0])
    && (forall k :: 0 <= k < |chain| - 1 ==> Follows(entries, chain, k))
  }

  lemma ChildOnPath(entries: seq<Entry>, chain: seq<Entry>, k: nat, e: Entry)
    requires k < |chain| && Follows(entries, chain, k) && e in entries && e.row.ppid == chain[k].row.pid
    ensures e in chain
  {
  }

  lemma NotLast(entries: seq<Entry>, chain: seq<Entry>, k: nat, e: Entry)
    requires k < |chain| && Follows(entries, chain, |chain| - 1) && e in entries && e.row.ppid == chain[k].row.pid
    ensures k < |chain| - 1
  {
  }

  lemma {:induction false} PathHoldsAll(entries: seq<Entry>, chain: seq<Entry>, e: Entry)
    requires Ranked(entries) && Path(entries, chain) && Follows(entries, chain, |chain| - 1) && e in entries
    ensures e in chain
    decreases e.depth
  {
    if HasParent(entries, e) {
      var p :| p in entries && p.row.pid == e.row.ppid;
      assert e.depth == p.depth + 1;
      PathHoldsAll(entries, chain, p);
      var k :| 0 <= k < |chain| && chain[k] == p;
      NotLast(entries, chain, k, e);
      ChildOnPath(entries, chain, k, e);
    }
  }

  lemma PathGrows(entries: seq<Entry>, chain: seq<Entry>, c: Entry)
    requires Path(entries, chain) && ChildrenListed(entries, chain[|chain| - 1].row.pid, [c])
    ensures Path(entries, chain + [c]) && c in entries && c.row.ppid == chain[|chain| - 1].row.pid
  {
    var longer := chain + [c];
    assert c in [c];
    assert forall x :: x in [c] ==> x == c;
    forall k | 0 <= k < |longer| - 1 ensures Follows(entries, longer, k) {
      if k < |chain| - 1 {
        assert Follows(entries, chain, k);
      }
    }
  }

  lemma PathIsChain(entries: seq<Entry>, chain: seq<Entry>)
    requires Ranked(entries) && Path(entries, chain) && |chain| >= 2 && Follows(entries, chain, |chain| - 1)
    ensures IsChain(entries, chain)
  {
    forall e | e in entries ensures e in chain {
      PathHoldsAll(entries, chain, e);
    }
  }

  // ---- Walking the chain ----

  function Keep(entries: seq<Entry>, p: Entry -> bool): (r: seq<Entry>)
    ensures forall e :: e in r <==> e in entries && p(e)
  {
    if entries == [] then []
    else
      var n := |entries| - 1;
      var before := Keep(entries[..n], p);
      assert entries == entries[..n] + [entries[n]];
      if p(entries[n]) then before + [entries[n]] else before
  }

  lemma {:induction false} KeepInOrder(entries: seq<Entry>, p: Entry -> bool)
    requires Distinct(entries)
    ensures Distinct(Keep(entries, p))
    ensures (forall i, j :: 0 <= i < j < |entries| ==> entries[i].depth <= entries[j].depth) ==>
              (forall i, j :: 0 <= i < j < |Keep(entries, p)| ==>
                 Keep(entries, p)[i].depth <= Keep(entries, p)[j].depth)
  {
    if entries != [] {
      var n := |entries| - 1;
      KeepInOrder(entries[..n], p);
      var before := Keep(entries[..n], p);
      forall i | 0 <= i < |before| ensures exists k :: 0 <= k < n && entries[k] == before[i] {
        assert before[i] in before;
      }
    }
  }

  function ListingOf(byParent: map<int, seq<Entry>>, pid: int): seq<Entry> {
    if pid in byParent then byParent[pid] else []
  }

  ghost predicate ChildrenListed(entries: seq<Entry>, pid: int, listed: seq<Entry>) {
    Distinct(listed) && forall e :: e in listed <==> e in entries && e.row.ppid == pid
  }

  lemma OneMoreListed(entries: seq<Entry>, i: nat, pid: int, listed: seq<Entry>)
    requires Distinct(entries) && i < |entries| && ChildrenListed(entries[..i], pid, listed)
    ensures ChildrenListed(entries[..i + 1], pid, if entries[i].row.ppid == pid then listed + [entries[i]] else listed)
  {
    assert entries[..i + 1] == entries[..i] + [entries[i]];
    forall k | 0 <= k < |listed| ensures listed[k].row.pid != entries[i].row.pid {
      assert listed[k] in listed;
    }
  }

  method GroupEntries(entries: seq<Entry>) returns (byParent: map<int, seq<Entry>>)
    requires Distinct(entries)
    ensures forall pid :: ChildrenListed(entries, pid, ListingOf(byParent, pid))
  {
    byParent := map[];
    for i := 0 to |entries|
      invariant forall pid :: ChildrenListed(entries[..i], pid, ListingOf(byParent, pid))
    {
      var e := entries[i];
      ghost var before := byParent;
      byParent := byParent[e.row.ppid := ListingOf(byParent, e.row.ppid) + [e]];
      forall pid ensures ChildrenListed(entries[..i + 1], pid, ListingOf(byParent, pid)) {
        OneMoreListed(entries, i, pid, ListingOf(before, pid));
      }
    }
    assert entries[..|entries|] == entries;
  }

  ghost predicate NoChain(entries: seq<Entry>) {
    forall chain :: !IsChain(entries, chain)
  }

  /** The only entry whose parent is not among the entries. */
  method OnlyRoot(entries: seq<Entry>) returns (r: Option<Entry>)
    requires Ranked(entries)
    ensures r == None ==> NoChain(entries)
    ensures r.Some? ==> Path(entries, [r.value]) && !HasParent(entries, r.value)
  {
    var isTop := (e: Entry) => !HasParent(entries, e);
    var roots := Keep(entries, isTop);
    KeepInOrder(entries, isTop);
    if |roots| != 1 {
      NotOneRoot(entries, roots);
      return None;
    }
    assert roots[0] in roots;
    assert roots == [roots[0]];
    assert forall x :: x in [roots[0]] ==> x == roots[0];
    return Some(roots[0]);
  }

  /** The end of the chain, when the foreground entries are one. */
  method DeepestUnambiguousForegroundDescendant(entries: seq<Entry>) returns (r: Option<Entry>)
    requires Ranked(entries) && forall e :: e in entries ==> e.row.foreground
    ensures r == None ==> NoChain(entries)
    ensures r.Some? ==> exists chain :: IsChain(entries, chain) && chain[|chain| - 1] == r.value
  {
    var byParent := GroupEntries(entries);
    var root := OnlyRoot(entries);
    if root == None {
      return None;
    }
    var current := root.value;
    var changed := false;
    ghost var chain := [current];
    while true
      invariant Path(entries, chain) && current == chain[|chain| - 1]
      invariant if changed then |chain| >= 2 else current == root.value
      decreases MaxDepth(entries) - current.depth
    {
      assert current in chain && ChildrenListed(entries, current.row.pid, ListingOf(byParent, current.row.pid));
      var children := InFront(entries, current, ListingOf(byParent, current.row.pid));
      if children == [] {
        if changed {
          PathIsChain(entries, chain);
          return Some(current);
        }
        NoChild(entries, current);
        return None;
      }
      if |children| != 1 {
        Branches(entries, current, children);
        return None;
      }
      assert children == [children[0]];
      PathGrows(entries, chain, children[0]);
      current := children[0];
      chain := chain + [current];
      changed := true;
    }
  }

  method InFront(ghost entries: seq<Entry>, ghost p: Entry, listed: seq<Entry>) returns (children: seq<Entry>)
    requires ChildrenListed(entries, p.row.pid, listed) && forall e :: e in entries ==> e.row.foreground
    ensures ChildrenListed(entries, p.row.pid, children)
  {
    var inFront := (e: Entry) => e.row.foreground;
    children := Keep(listed, inFront);
    KeepInOrder(listed, inFront);
  }

  function MaxDepth(entries: seq<Entry>): (n: nat)
    ensures forall e :: e in entries ==> e.depth <= n
  {
    if entries == [] then 0
    else
      var rest := MaxDepth(entries[1..]);
      if entries[0].depth > rest then entries[0].depth else rest
  }

  lemma NotOneRoot(entries: seq<Entry>, roots: seq<Entry>)
    requires Ranked(entries) && Distinct(roots) && |roots| != 1
    requires forall e :: e in roots <==> e in entries && !HasParent(entries, e)
    ensures NoChain(entries)
  {
    forall chain ensures !IsChain(entries, chain) {
      if IsChain(entries, chain) {
        assert chain[0] in chain;
        ChainStart(entries, chain, chain[0]);
        if |roots| >= 2 {
          ChainStart(entries, chain, roots[0]);
          ChainStart(entries, chain, roots[1]);
        }
        assert false;
      }
    }
  }

  lemma NoChild(entries: seq<Entry>, top: Entry)
    requires Ranked(entries) && top in entries && !HasParent(entries, top) && !HasChild(entries, top)
    ensures NoChain(entries)
  {
    forall chain ensures !IsChain(entries, chain) {
      if IsChain(entries, chain) {
        ChainStart(entries, chain, top);
        ChainEnd(entries, chain, top);
        ChainDepth(entries, chain, |chain| - 1);
        assert false;
      }
    }
  }

  lemma Branches(entries: seq<Entry>, p: Entry, children: seq<Entry>)
    requires Ranked(entries) && p in entries && ChildrenListed(entries, p.row.pid, children) && |children| >= 2
    ensures NoChain(entries)
  {
    forall chain ensures !IsChain(entries, chain) {
      if IsChain(entries, chain) {
        assert children[0] in children && children[1] in children;
        ChainNarrow(entries, chain, p, children[0], children[1]);
        assert false;
      }
    }
  }

  /** All chains of the same entries end in the same one. */
  lemma OneEnd(entries: seq<Entry>, a: seq<Entry>, b: seq<Entry>)
    requires Ranked(entries) && IsChain(entries, a) && IsChain(entries, b)
    ensures a[|a| - 1] == b[|b| - 1]
  {
    var last := a[|a| - 1];
    assert last in a;
    ChainEnd(entries, a, last);
    ChainEnd(entries, b, last);
  }
}
