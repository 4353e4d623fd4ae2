/** What recovery's replay of uncommitted entries leads to, in the smallest case. */
module Replacements {
  import opened Common
  import opened StateMachines
  import opened RaftNode
  import opened WalFormat
  import opened Memory
  import opened Servers

  /** Why a conflict must lie above what is applied: a restart applies every record of the WAL, committed or
      not. When a leader then replaces such an entry, its effect stays in the map, and no history explains the
      map any more. */
  lemma ReplacedEntryStaysApplied(key: Bytes, value: Bytes)
    requires SpaceFree(key + [EQUALS] + value) && EQUALS !in key
    ensures var history := [Entry(1, 1, NO_OP), Entry(1, 2, SetCommand(key, value))];
      var s := Server(Recover(0, {0, 1, 2}, Disk(history, None)), Disk(history, None));
      var a := AppendArgs(2, 1, 1, 1, [Entry(2, 2, NO_OP)], 0);
      var t := StoreAppend(s, a).0;
      && Agrees(s, history) && WellFormed(a)
      && t.node.log == [history[0], a.entries[0]] && t.node.kv == map[key := value]
      && forall h :: !Agrees(t, h)
  {
    var history := [Entry(1, 1, NO_OP), Entry(1, 2, SetCommand(key, value))];
    var disk := Disk(history, None);
    var s := Server(Recover(0, {0, 1, 2}, disk), disk);
    var a := AppendArgs(2, 1, 1, 1, [Entry(2, 2, NO_OP)], 0);
    RecoveredTwo(disk, history, key, value);
    ServedTwo(s, history, a);
    NothingExplains(StoreAppend(s, a).0, history[0], a.entries[0], key, value);
  }

  lemma RecoveredTwo(disk: Disk, history: seq<Entry>, key: Bytes, value: Bytes)
    requires SpaceFree(key + [EQUALS] + value) && EQUALS !in key
    requires history == [Entry(1, 1, NO_OP), Entry(1, 2, SetCommand(key, value))] && disk == Disk(history, None)
    ensures var n := Recover(0, {0, 1, 2}, disk);
      && Agrees(Server(n, disk), history)
      && n == FreshNode(0, {0, 1, 2}).(log := history, applied := 2, kv := map[key := value])
  {
    assert history[0..] == history;
    RecoveredNode(0, {0, 1, 2}, disk, 0, history);
    RecoveryAgrees(0, {0, 1, 2}, disk, 0, history);
    ReplayTwo(history[0], history[1]);
    NoOpChangesNothing(map[]);
    SetCommandStores(key, value);
    var empty: Kv := map[];
    assert ApplyCommand(empty, SetCommand(key, value)) == empty[key := value];
  }

  lemma ServedTwo(s: Server, log: seq<Entry>, a: AppendArgs)
    requires |log| == 2 && log[0].index == 1 && log[0].term == 1 && log[1].index == 2 && log[1].term == 1
    requires s.node == FreshNode(0, {0, 1, 2}).(log := log, applied := 2, kv := s.node.kv) && s.disk == Disk(log, None)
    requires a == AppendArgs(2, 1, 1, 1, [Entry(2, 2, NO_OP)], 0)
    ensures var t := StoreAppend(s, a).0;
      t.node.log == [log[0], a.entries[0]] && t.node.kv == s.node.kv && t.node.offset == 0 && t.node.applied == 2
  {
    var m := Acknowledge(s.node, a);
    ConflictAtTwo(m, log, a);
    StoredParts(s, a);
    assert Rest(m, a.entries) == a.entries;
    assert [log[0]] + a.entries == [log[0], a.entries[0]];
  }

  lemma NothingExplains(t: Server, d: Entry, e: Entry, key: Bytes, value: Bytes)
    requires t.node.log == [d, e] && d.data == NO_OP && e.data == NO_OP
    requires t.node.kv == map[key := value] && t.node.offset == 0 && t.node.applied == 2
    ensures forall h :: !Agrees(t, h)
  {
    ReplayTwo(d, e);
    NoOpChangesNothing(map[]);
    assert key in t.node.kv;
    forall h ensures !Agrees(t, h) {
      if Agrees(t, h) { AllApplied(t.node, h); }
    }
  }

  lemma AllApplied(n: Node, history: seq<Entry>)
    requires MemoryOk(n, history) && n.offset == 0 && n.applied == |n.log|
    ensures n.kv == Replay(map[], n.log)
  {
    assert history[0..] == history && history[..n.applied] == history;
  }

  lemma ReplayTwo(d: Entry, e: Entry)
    ensures Replay(map[], [d, e]) == ApplyCommand(ApplyCommand(map[], d.data), e.data)
  {
    assert [d, e] == [d] + [e];
    ReplayConcat(map[], [d], [e]);
    ReplayOne(map[], d);
    ReplayOne(ApplyCommand(map[], d.data), e);
  }

  lemma ConflictAtTwo(m: Node, log: seq<Entry>, a: AppendArgs)
    requires m.offset == 0 && m.log == log && |log| == 2 && log[0].index == 1 && log[0].term == 1 && log[1].index == 2
    requires log[1].term == 1
    requires a == AppendArgs(2, 1, 1, 1, [Entry(2, 2, NO_OP)], 0)
    ensures ScanFrom(m, a.entries, 0) == Scan(0, true) && !PrevMismatch(m, a)
    ensures TruncateList(log, 1) == Some([log[0]]) && Cut(m, a.entries).log == [log[0]] && !Gap(m, a)
  {
  }
}
