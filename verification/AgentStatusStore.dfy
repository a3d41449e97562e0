/** The class of `src/agentStatusStore.ts` that holds the snapshot and tells its listeners. */
module AgentStatusStores {
  import opened AgentStatus
  import opened AgentStore

  datatype Notice = Notice(listener: nat, snapshot: Snapshot)

  function Notices(listeners: seq<nat>, s: Snapshot): seq<Notice> {
    seq(|listeners|, k requires 0 <= k < |listeners| => Notice(listeners[k], s))
  }

  class AgentStatusStore {
    var snapshot: Snapshot
    var listeners: seq<nat>
    /** Every call of a listener so far. */
    var heard: seq<Notice>

    ghost predicate Valid()
      reads this
    {
      WellFormed(snapshot) && forall i, j :: 0 <= i < j < |listeners| ==> listeners[i] != listeners[j]
    }

    /** What one operation does: the snapshot follows the specification, and a changed one is given once
        to every listener. */
    ghost predicate Moved(before: Snapshot, after: Snapshot, told: seq<Notice>)
      reads this
    {
      snapshot == after && heard == told + if after == before then [] else Notices(listeners, after)
    }

    constructor (initial: Snapshot)
      requires WellFormed(initial)
      ensures Valid() && snapshot == initial && listeners == [] && heard == []
    {
      snapshot, listeners, heard := initial, [], [];
    }

    method Subscribe(listener: nat)
      requires Valid()
      modifies this`listeners
      ensures Valid()
      ensures listeners == if listener in old(listeners) then old(listeners) else old(listeners) + [listener]
    {
      if listener !in listeners {
        listeners := listeners + [listener];
      }
    }

    method Publish(next: Snapshot)
      modifies this`snapshot, this`heard
      ensures snapshot == next && heard == old(heard) + Notices(listeners, next)
    {
      snapshot := next;
      for i := 0 to |listeners|
        invariant snapshot == next
        invariant heard == old(heard) + Notices(listeners, next)[..i]
      {
        heard := heard + [Notice(listeners[i], snapshot)];
      }
    }

    method Dispatch(e: Event) returns (accepted: bool)
      requires Valid()
      modifies this`snapshot, this`heard
      ensures Valid() && Moved(old(snapshot), Reduce(old(snapshot), e), old(heard))
      ensures accepted == Accepts(old(snapshot), e) == (snapshot != old(snapshot))
    {
      ReduceIsGood(snapshot, e);
      var next := Reduce(snapshot, e);
      if !Accepts(snapshot, e) {
        return false;
      }
      Publish(next);
      return true;
    }

    method MarkOne(id: string, at: Moment) returns (changed: bool)
      requires Valid()
      modifies this`snapshot, this`heard
      ensures Valid() && Moved(old(snapshot), MarkAcknowledged(old(snapshot), id, at), old(heard))
      ensures changed == (snapshot != old(snapshot))
    {
      ApplyIsGood(snapshot, Acknowledge(id, at));
      if id !in snapshot.entries || at.NotFinite? {
        return false;
      }
      var entry := snapshot.entries[id];
      var next := AcknowledgedEntry(entry, at.at);
      if !NeedsAcknowledgement(entry) && next.status.acknowledgedAt == entry.status.acknowledgedAt {
        return false;
      }
      Publish(snapshot.(revision := snapshot.revision + 1, entries := snapshot.entries[id := next]));
      return true;
    }

    method MarkTerminal(terminal: string, at: Moment) returns (count: nat)
      requires Valid()
      modifies this`snapshot, this`heard
      ensures Valid() && Moved(old(snapshot), MarkTerminalAcknowledged(old(snapshot), terminal, at), old(heard))
      ensures count == if at.Finite? then |ToAcknowledge(old(snapshot), terminal)| else 0
    {
      ApplyIsGood(snapshot, AcknowledgeTerminal(terminal, at));
      if at.NotFinite? || ToAcknowledge(snapshot, terminal) == {} {
        return 0;
      }
      var chosen := ToAcknowledge(snapshot, terminal);
      var entries := AcknowledgeEach(snapshot.entries, chosen, at.at);
      ghost var next := MarkTerminalAcknowledged(snapshot, terminal, at);
      assert entries == next.entries;
      Publish(snapshot.(revision := snapshot.revision + 1, entries := entries));
      return |chosen|;
    }

    method ClearSnapshot() returns (changed: bool)
      requires Valid()
      modifies this`snapshot, this`heard
      ensures Valid() && Moved(old(snapshot), Clear(old(snapshot)), old(heard))
      ensures changed == (snapshot != old(snapshot))
    {
      ApplyIsGood(snapshot, ClearAll);
      if snapshot.entries == map[] && snapshot.cursors == map[] {
        return false;
      }
      Publish(Clear(snapshot));
      return true;
    }
  }

  /** Replaces the chosen entries one at a time. */
  method AcknowledgeEach(entries: map<string, Entry>, chosen: set<string>, at: real) returns (r: map<string, Entry>)
    requires chosen <= entries.Keys && forall id :: id in entries ==> entries[id].identity.entryId == id
    ensures r.Keys == entries.Keys
    ensures forall id :: id in entries ==>
      r[id] == if id in chosen then AcknowledgedEntry(entries[id], at) else entries[id]
  {
    r := entries;
    var left := chosen;
    while left != {}
      invariant left <= chosen && r.Keys == entries.Keys
      invariant forall id :: id in entries ==>
        r[id] == if id in chosen && id !in left then AcknowledgedEntry(entries[id], at) else entries[id]
      decreases |left|
    {
      var id :| id in left;
      left := left - {id};
      r := r[entries[id].identity.entryId := AcknowledgedEntry(entries[id], at)];
    }
  }
}
