/** Choosing the foreground process of a session (`electron/processCwd.ts`). */
module ProcessSelection {
  import opened Common
  import opened ProcessTree
  import opened ProcessSearch
  import opened ProcessChain

  datatype Selection = Selection(command: Option<string>, consultProcessGroup: bool)

  predicate OtherThan(rootCommand: Option<string>, e: Entry) {
    Some(e.row.command) != rootCommand
  }

  function RootGroup(table: seq<Row>, root: int): int {
    var row := Get(table, root);
    if row.Some? then row.value.pgid else root
  }

  function InFrontOf(rootCommand: Option<string>): Entry -> bool {
    (e: Entry) => e.row.foreground && OtherThan(rootCommand, e)
  }

  function InGroup(rootCommand: Option<string>, group: int, root: int): Entry -> bool {
    (e: Entry) => OtherThan(rootCommand, e) && (e.row.pgid == group || e.row.pgid == root)
  }

  function Foreground(table: seq<Row>, root: int, rootCommand: Option<string>): seq<Entry> {
    Keep(Descendants(table, root), InFrontOf(rootCommand))
  }

  function Grouped(table: seq<Row>, root: int, rootCommand: Option<string>): seq<Entry> {
    Keep(Descendants(table, root), InGroup(rootCommand, RootGroup(table, root), root))
  }

  ghost predicate NearestFirst(entries: seq<Entry>) {
    forall i, j :: 0 <= i < j < |entries| ==> entries[i].depth <= entries[j].depth
  }

  lemma DescendantsAreRanked(table: seq<Row>, root: int)
    requires Table(table)
    ensures Ranked(Descendants(table, root)) && NearestFirst(Descendants(table, root))
  {
    var found := Descendants(table, root);
    DescendantsAreTrue(table, root);
    forall e, p | e in found && p in found && e.row.ppid == p.row.pid ensures e.depth == p.depth + 1 {
      assert Below(table, root, e.row.pid, e.depth) && Below(table, root, p.row.pid, p.depth);
      var row :| row in table && row.pid == e.row.pid && Below(table, root, row.ppid, e.depth - 1);
      assert row == e.row;
      OneDistance(table, root, p.row.pid, e.depth - 1, p.depth);
    }
  }

  lemma KeepIsRanked(table: seq<Row>, root: int, p: Entry -> bool)
    requires Table(table)
    ensures Ranked(Keep(Descendants(table, root), p)) && NearestFirst(Keep(Descendants(table, root), p))
  {
    DescendantsAreRanked(table, root);
    KeepInOrder(Descendants(table, root), p);
  }

  /** The first of the nearest. */
  method NearestDescendant(entries: seq<Entry>) returns (r: Entry)
    requires entries != []
    ensures exists k :: 0 <= k < |entries| && entries[k] == r && forall j :: 0 <= j < k ==> r.depth < entries[j].depth
    ensures forall e :: e in entries ==> r.depth <= e.depth
  {
    r := entries[0];
    for i := 1 to |entries|
      invariant exists k :: 0 <= k < i && entries[k] == r && forall j :: 0 <= j < k ==> r.depth < entries[j].depth
      invariant forall j :: 0 <= j < i ==> r.depth <= entries[j].depth
    {
      if entries[i].depth < r.depth {
        r := entries[i];
      }
    }
  }

  /** The command several candidates stand for: the end of their chain, or else the nearest. */
  ghost predicate Represents(entries: seq<Entry>, command: string) {
    || (exists chain: seq<Entry> :: IsChain(entries, chain) && command == chain[|chain| - 1].row.command)
    || (NoChain(entries) && entries != [] && command == entries[0].row.command)
  }

  method SelectForegroundProcessFromTable(root: int, table: seq<Row>, rootCommand: Option<string>)
      returns (s: Selection)
    requires Table(table)
    ensures var inFront, grouped := Foreground(table, root, rootCommand), Grouped(table, root, rootCommand);
      && (|inFront| == 1 ==> s == Selection(Some(inFront[0].row.command), false))
      && (|inFront| > 1 ==> s.consultProcessGroup && s.command.Some? && Represents(inFront, s.command.value))
      && (inFront == [] && grouped != [] ==> s == Selection(Some(grouped[0].row.command), |grouped| > 1))
      && (inFront == [] && grouped == [] ==> s == Selection(rootCommand, Descendants(table, root) != []))
  {
    var descendants := ResolveSessionDescendants(root, table);
    var foregroundDescendants := Keep(descendants, InFrontOf(rootCommand));
    KeepIsRanked(table, root, InFrontOf(rootCommand));
    if |foregroundDescendants| == 1 {
      return Selection(Some(foregroundDescendants[0].row.command), false);
    }
    if |foregroundDescendants| > 1 {
      var unwrapped := DeepestUnambiguousForegroundDescendant(foregroundDescendants);
      if unwrapped.Some? {
        return Selection(Some(unwrapped.value.row.command), true);
      }
      var nearest := NearestDescendant(foregroundDescendants);
      return Selection(Some(nearest.row.command), true);
    }
    var rootPgid := RootGroup(table, root);
    var groupedDescendants := Keep(descendants, InGroup(rootCommand, rootPgid, root));
    KeepIsRanked(table, root, InGroup(rootCommand, rootPgid, root));
    if |groupedDescendants| == 1 {
      return Selection(Some(groupedDescendants[0].row.command), false);
    }
    if |groupedDescendants| > 1 {
      var nearest := NearestDescendant(groupedDescendants);
      return Selection(Some(nearest.row.command), true);
    }
    return Selection(rootCommand, descendants != []);
  }
}
