/** One node with its disk, the WAL seen as the list of records it reads back as and the snapshot file as what
    it decodes to: what operations leave in memory and on disk, and what a restart makes of the disk. The
    bytes below are in Machine.dfy. */
module Servers {
  import opened Common
  import opened StateMachines
  import opened Quorums
  import opened RaftNode
  import opened WalFormat
  import opened SnapshotCodec
  import opened Memory

  datatype Disk = Disk(wal: seq<Entry>, snapshot: Option<Snapshot>)

  datatype Server = Server(node: Node, disk: Disk)

  // ---- Operations ----

  /** The WAL after the merge loop's truncation: None when there is no record to truncate after. */
  function Truncated(m: Node, wal: seq<Entry>, entries: seq<Entry>): Option<seq<Entry>> {
    var s := ScanFrom(m, entries, 0);
    if s.conflict then TruncateList(wal, entries[s.from].index - 1) else Some(wal)
  }

  /** HandleAppendEntries up to, but without, the snapshot at its end. */
  function StoreAppend(s: Server, a: AppendArgs): (Server, AppendReply) {
    if a.term < s.node.term then (s, AppendReply(s.node.term, false, 0))
    else
      var m := Acknowledge(s.node, a);
      var t := Truncated(m, s.disk.wal, a.entries);
      var (n, r) := HandleAppend(s.node, a, t.Some?, true);
      var wal :=
        if PrevMismatch(m, a) || t.None? then s.disk.wal
        else if Gap(m, a) then t.value
        else t.value + Rest(m, a.entries);
      (Server(n, s.disk.(wal := wal)), r)
  }

  /** The subtraction is on 64-bit unsigned numbers: a lastApplied that fell behind wraps to a huge
      difference. */
  predicate SnapshotDue(n: Node) {
    n.applied < n.lastSnapshot || n.applied - n.lastSnapshot >= 3
  }

  function CompactLog(n: Node, index: nat): Node {
    if index <= n.offset || index > n.applied || index - n.offset > |n.log| then n
    else n.(log := n.log[index - n.offset..], offset := index)
  }

  /** The snapshot maybeSnapshot takes, if one is due. */
  function DueSnapshot(n: Node): Option<Snapshot> {
    if SnapshotDue(n) && n.Has(n.applied) then Some(Snapshot(n.applied, n.log[n.Pos(n.applied)].term, n.kv)) else None
  }

  /** The node after maybeSnapshot. */
  function SnapshotNode(n: Node): Node {
    match DueSnapshot(n)
    case None => n
    case Some(x) => CompactLog(n, x.index).(lastSnapshot := x.index)
  }

  /** The vote reply that makes a candidate the leader. */
  predicate Wins(n: Node, r: VoteReply) {
    r.term <= n.term && r.granted && n.votes + 1 >= Majority(n.peers) && n.role == Candidate
  }

  /** HandleInstallSnapshot, given what its payload decodes to. */
  function ServeInstall(s: Server, term: nat, payload: Option<Snapshot>): Server {
    if term < s.node.term then s
    else
      var m := s.node.(role := Follower,
                       votedFor := if term > s.node.term then None else s.node.votedFor,
                       term := if term > s.node.term then term else s.node.term);
      match payload
      case None => s.(node := m)
      case Some(x) =>
        Server(m.(kv := x.data, offset := x.index, applied := x.index, commit := x.index, log := []),
               s.disk.(snapshot := Some(x)))
  }

  /** The node once the snapshot is restored. */
  function Loaded(i: nat, peers: set<nat>, snapshot: Option<Snapshot>): Node {
    match snapshot
    case None => FreshNode(i, peers)
    case Some(x) => FreshNode(i, peers).(kv := x.data, offset := x.index, applied := x.index, commit := x.index)
  }

  /** loadPersistedState: the snapshot, then every WAL entry above it - committed or not. */
  function Recover(i: nat, peers: set<nat>, disk: Disk): Node {
    var m := Loaded(i, peers, disk.snapshot);
    var survivors := Survivors(disk.wal, m.offset);
    ReplayFrom(m.(log := survivors), survivors)
  }

  // ---- Memory, disk and history agree ----

  /** The records of the log are the end of the WAL; anything before them is covered by the snapshot. */
  ghost predicate WalOk(wal: seq<Entry>, offset: nat, log: seq<Entry>) {
    |log| <= |wal| && wal[|wal| - |log|..] == log && UpTo(wal[..|wal| - |log|], offset)
  }

  ghost predicate SnapshotOk(snapshot: Option<Snapshot>, offset: nat, history: seq<Entry>) {
    match snapshot
    case None => offset == 0
    case Some(x) => x.index == offset && offset <= |history| && x.data == Replay(map[], history[..offset])
  }

  ghost predicate Agrees(s: Server, history: seq<Entry>) {
    && MemoryOk(s.node, history)
    && WalOk(s.disk.wal, s.node.offset, s.node.log)
    && SnapshotOk(s.disk.snapshot, s.node.offset, history)
  }

  // ---- Recovery ----

  /** What recovery and compaction keep of the WAL is exactly the log. */
  lemma SurvivorsAreLog(wal: seq<Entry>, offset: nat, log: seq<Entry>)
    requires WalOk(wal, offset, log) && Contiguous(log, offset)
    ensures Survivors(wal, offset) == log
  {
    var stale := wal[..|wal| - |log|];
    assert wal == stale + log;
    SurvivorsConcat(stale, log, offset);
    NoSurvivors(stale, offset);
    AllSurvive(log, offset);
    assert [] + log == log;
  }

  lemma LoadedMatches(i: nat, peers: set<nat>, snapshot: Option<Snapshot>, offset: nat, history: seq<Entry>)
    requires offset <= |history| && SnapshotOk(snapshot, offset, history)
    ensures var m := Loaded(i, peers, snapshot);
      && m.offset == m.applied == m.commit == offset && m.kv == Replay(map[], history[..offset])
      && m.id == i && m.peers == peers
  {
    if snapshot == None { assert history[..0] == []; }
  }

  lemma RecoveredNode(i: nat, peers: set<nat>, disk: Disk, offset: nat, history: seq<Entry>)
    requires Contiguous(history, 0) && offset <= |history|
    requires WalOk(disk.wal, offset, history[offset..]) && SnapshotOk(disk.snapshot, offset, history)
    ensures Recover(i, peers, disk) ==
      Loaded(i, peers, disk.snapshot).(log := history[offset..], applied := |history|, kv := Replay(map[], history))
  {
    var log := history[offset..];
    var m := Loaded(i, peers, disk.snapshot);
    assert Contiguous(log, offset);
    SurvivorsAreLog(disk.wal, offset, log);
    LoadedMatches(i, peers, disk.snapshot, offset, history);
    ReplayFromMeaning(m.(log := log), log, offset);
    ReplayConcat(map[], history[..offset], log);
    SplitAt(history, offset);
  }

  /** A restart rebuilds the same offset and log, and the replay of the whole log; and memory and disk agree
      again, on the same history. */
  lemma RecoveryAgrees(i: nat, peers: set<nat>, disk: Disk, offset: nat, history: seq<Entry>)
    requires Contiguous(history, 0) && offset <= |history|
    requires WalOk(disk.wal, offset, history[offset..]) && SnapshotOk(disk.snapshot, offset, history)
    ensures var r := Recover(i, peers, disk);
      && r.offset == offset && r.log == history[offset..] && r.applied == |history| && r.LastIndex() == |history|
      && r.kv == Replay(map[], history)
      && Agrees(Server(r, disk), history)
  {
    RecoveredNode(i, peers, disk, offset, history);
    LoadedMatches(i, peers, disk.snapshot, offset, history);
    SplitAt(history, offset);
  }

  /** A restart from the disk rebuilds exactly this history. */
  ghost predicate Rebuilds(i: nat, peers: set<nat>, disk: Disk, history: seq<Entry>) {
    var r := Recover(i, peers, disk);
    r.LastIndex() == r.applied == |history| && r.kv == Replay(map[], history) && Agrees(Server(r, disk), history)
  }

  lemma RestartAgrees(s: Server, history: seq<Entry>)
    requires Agrees(s, history)
    ensures var r := Recover(s.node.id, s.node.peers, s.disk);
      && r.offset == s.node.offset && r.log == s.node.log && r.kv == Replay(map[], history)
      && Agrees(Server(r, s.disk), history)
  {
    RecoveryAgrees(s.node.id, s.node.peers, s.disk, s.node.offset, history);
  }

  // ---- Snapshots ----

  /** The snapshot keeps agreement when the compacted WAL holds, behind stale records, what survives. */
  lemma SnapshotKeepsAgreement(s: Server, history: seq<Entry>, stale: seq<Entry>)
    requires Agrees(s, history) && DueSnapshot(s.node).Some? && UpTo(stale, s.node.applied)
    ensures var wal := stale + Survivors(s.disk.wal, s.node.applied);
      Agrees(Server(SnapshotNode(s.node), Disk(wal, DueSnapshot(s.node))), history)
  {
    var n := s.node;
    var log, log' := n.log, history[n.applied..];
    LogContiguous(n, history);
    assert CompactLog(n, n.applied).log == log' == log[n.applied - n.offset..];
    SavedBeforeCompaction(s, history);
    SurvivorsAreLog(s.disk.wal, n.applied, log');
    BehindStaleRecords(stale, n.applied, log');
  }

  lemma BehindStaleRecords(stale: seq<Entry>, offset: nat, log: seq<Entry>)
    requires UpTo(stale, offset)
    ensures WalOk(stale + log, offset, log)
  {
    var wal := stale + log;
    assert wal[|wal| - |log|..] == log && wal[..|wal| - |log|] == stale;
  }

  /** With the new snapshot on disk, a restart finds the compacted log in a WAL if and only if the WAL still
      holds what is to survive. */
  lemma SnapshotRecovers(s: Server, history: seq<Entry>, wal: seq<Entry>)
    requires Agrees(s, history) && DueSnapshot(s.node).Some?
    ensures Recover(s.node.id, s.node.peers, Disk(wal, DueSnapshot(s.node))).log == SnapshotNode(s.node).log
            <==> Survivors(wal, s.node.applied) == Survivors(s.disk.wal, s.node.applied)
  {
    var n := s.node;
    SavedBeforeCompaction(s, history);
    LogContiguous(n, history);
    assert CompactLog(n, n.applied).log == history[n.applied..];
    SurvivorsAreLog(s.disk.wal, n.applied, history[n.applied..]);
    ReplayFromLog(Loaded(n.id, n.peers, DueSnapshot(n)).(log := Survivors(wal, n.applied)), Survivors(wal, n.applied));
  }

  /** Once the snapshot is saved, the old WAL is still good: it only holds more than is needed. */
  lemma SavedBeforeCompaction(s: Server, history: seq<Entry>)
    requires Agrees(s, history) && DueSnapshot(s.node).Some?
    ensures s.node.applied <= |history| && WalOk(s.disk.wal, s.node.applied, history[s.node.applied..])
    ensures SnapshotOk(DueSnapshot(s.node), s.node.applied, history)
    ensures Contiguous(history[s.node.applied..], s.node.applied)
  {
    Newer(s.disk.wal, s.node.log, s.node.offset, history, s.node.applied);
  }

  /** Compaction leaves every entry above the new offset where it was, and never skips past what has been
      applied. */
  lemma CompactionKeepsEntries(n: Node, history: seq<Entry>, index: nat)
    requires MemoryOk(n, history)
    ensures n.offset <= SnapshotNode(n).offset <= n.applied
    ensures index > SnapshotNode(n).offset ==> SnapshotNode(n).EntryAt(index) == n.EntryAt(index)
    ensures SnapshotNode(n).LastIndex() == n.LastIndex()
    ensures SnapshotNode(n).kv == n.kv && SnapshotNode(n).applied == n.applied && MemoryOk(SnapshotNode(n), history)
  {
    LogContiguous(n, history);
    if DueSnapshot(n).Some? {
      assert CompactLog(n, n.applied).log == history[n.applied..] == n.log[n.applied - n.offset..];
    }
    LogContiguous(SnapshotNode(n), history);
    EntryOf(n, history, index);
    EntryOf(SnapshotNode(n), history, index);
  }

  // ---- Leaders ----

  lemma AppendOwn(s: Server, history: seq<Entry>, t: Server, e: Entry)
    requires Agrees(s, history) && e.index == s.node.LastIndex() + 1
    requires t.node.log == s.node.log + [e] && t.disk == s.disk.(wal := s.disk.wal + [e])
    requires t.node.offset == s.node.offset && t.node.applied == s.node.applied && t.node.commit == s.node.commit
    requires t.node.kv == s.node.kv
    ensures Agrees(t, history + [e])
  {
    AppendedMemory(s.node, t.node, history, e);
    AppendedOnDisk(s.disk.wal, s.node.offset, s.node.log, [e]);
  }

  lemma SameMemory(s: Server, t: Server, history: seq<Entry>)
    requires Agrees(s, history) && t.disk == s.disk
    requires t.node.log == s.node.log && t.node.offset == s.node.offset && t.node.applied == s.node.applied
    requires t.node.commit == s.node.commit && t.node.kv == s.node.kv
    ensures Agrees(t, history)
  {
  }

  /** A vote reply makes the node a leader or leaves its log alone. */
  lemma VoteEffect(n: Node, r: VoteReply)
    ensures var n' := HandleVoteReply(n, r);
      if Wins(n, r) then n'.log == n.log + [NoOp(n)] else n'.log == n.log
    ensures var n' := HandleVoteReply(n, r);
      n'.offset == n.offset && n'.applied == n.applied && n'.commit == n.commit && n'.kv == n.kv
  {
  }

  /** The commit rule up to, but without, the snapshot. */
  lemma CommitKeepsAgreement(s: Server, history: seq<Entry>)
    requires Agrees(s, history)
    ensures Agrees(s.(node := TryAdvance(s.node)), history)
  {
    if CanAdvance(s.node) {
      LogContiguous(s.node, history);
      var n := s.node.(commit := MajorityPick(s.node.matched, s.node.LastIndex()));
      CatchUpKeepsMemory(n, history);
      CatchUpFrame(n);
    }
  }

  // ---- Followers ----

  /** The merge finds no conflict at or below what the node has applied, and none at the first index the log
      holds (there is no record to truncate after). */
  ghost predicate SafeConflict(n: Node, a: AppendArgs) {
    var s := ScanFrom(n, a.entries, 0);
    s.conflict ==> a.entries[s.from].index > n.applied && a.entries[s.from].index > n.offset + 1
  }

  /** The history after the merge: what is compacted away, then the merged log. */
  ghost function NewHistory(s: Server, history: seq<Entry>, a: AppendArgs): seq<Entry>
    requires s.node.offset <= |history|
  {
    history[..s.node.offset] + StoreAppend(s, a).0.node.log
  }

  lemma CutWal(wal: seq<Entry>, offset: nat, log: seq<Entry>, j: nat)
    requires WalOk(wal, offset, log) && j <= |log|
    ensures WalOk(wal[..|wal| - |log| + j], offset, log[..j])
  {
    var n := |wal| - |log|;
    assert wal[..n + j][n..] == wal[n..][..j];
    assert wal[..n + j][..n] == wal[..n];
  }

  /** Truncating the WAL behind an index inside the log. */
  lemma {:induction false} TruncateInsideLog(wal: seq<Entry>, offset: nat, log: seq<Entry>, index: nat)
    requires WalOk(wal, offset, log) && Contiguous(log, offset) && offset < index <= offset + |log|
    ensures TruncateList(wal, index).Some? && WalOk(TruncateList(wal, index).value, offset, log[..index - offset])
  {
    var stale, j := wal[..|wal| - |log|], index - offset;
    CutWal(wal, offset, log, j);
    TruncateBehind(stale, log, offset, j);
    Joined(wal, stale, log, j);
  }

  lemma Joined<T>(wal: seq<T>, stale: seq<T>, log: seq<T>, j: nat)
    requires |log| <= |wal| && stale == wal[..|wal| - |log|] && log == wal[|wal| - |log|..] && j <= |log|
    ensures wal == stale + log && wal[..|wal| - |log| + j] == stale + log[..j]
  {
  }

  lemma TruncateBehind(stale: seq<Entry>, log: seq<Entry>, offset: nat, j: nat)
    requires UpTo(stale, offset) && Contiguous(log, offset) && 0 < j <= |log|
    ensures TruncateList(stale + log, offset + j) == Some(stale + log[..j])
  {
    MissingInLog(log, offset, j);
    MissingConcat(stale, log[..j - 1], offset + j);
    Around(stale, log, j - 1);
    TruncateListAt(stale + log[..j - 1], log[j - 1], log[j..], offset + j);
  }

  lemma MissingInLog(log: seq<Entry>, offset: nat, j: nat)
    requires Contiguous(log, offset) && 0 < j <= |log|
    ensures Missing(log[..j - 1], offset + j)
  {
  }

  lemma Around<T>(stale: seq<T>, log: seq<T>, j: nat)
    requires j < |log|
    ensures stale + log == (stale + log[..j]) + [log[j]] + log[j + 1..]
    ensures stale + log[..j + 1] == (stale + log[..j]) + [log[j]]
  {
  }

  lemma CutOfLog(m: Node, a: AppendArgs)
    requires Contiguous(m.log, m.offset) && m.offset <= m.applied <= m.offset + |m.log| && SafeConflict(m, a)
    ensures m.applied - m.offset <= |Cut(m, a.entries).log| && Cut(m, a.entries).log <= m.log
    ensures var s := ScanFrom(m, a.entries, 0);
      if s.conflict then
        var index := a.entries[s.from].index - 1;
        m.offset < index <= m.offset + |m.log| && Cut(m, a.entries).log == m.log[..index - m.offset]
      else Cut(m, a.entries).log == m.log
  {
  }

  /** The log and the WAL after the merge: truncation succeeds. */
  lemma MergeOnDisk(m: Node, wal: seq<Entry>, a: AppendArgs)
    requires Contiguous(m.log, m.offset) && m.offset <= m.applied <= m.offset + |m.log|
    requires WalOk(wal, m.offset, m.log) && SafeConflict(m, a)
    ensures Truncated(m, wal, a.entries).Some?
    ensures WalOk(Truncated(m, wal, a.entries).value, m.offset, Cut(m, a.entries).log)
  {
    CutOfLog(m, a);
    var s := ScanFrom(m, a.entries, 0);
    var index := if s.conflict then Some(a.entries[s.from].index - 1) else None;
    CutOnDisk(wal, m.offset, m.log, index, Truncated(m, wal, a.entries), Cut(m, a.entries).log);
  }

  lemma CutOnDisk(wal: seq<Entry>, offset: nat, log: seq<Entry>, index: Option<nat>, t: Option<seq<Entry>>,
                  cut: seq<Entry>)
    requires WalOk(wal, offset, log) && Contiguous(log, offset)
    requires match index
             case None => t == Some(wal) && cut == log
             case Some(i) => offset < i <= offset + |log| && t == TruncateList(wal, i) && cut == log[..i - offset]
    ensures t.Some? && WalOk(t.value, offset, cut)
  {
    if index.Some? { TruncateInsideLog(wal, offset, log, index.value); }
  }

  lemma AppendedOnDisk(wal: seq<Entry>, offset: nat, log: seq<Entry>, rest: seq<Entry>)
    requires WalOk(wal, offset, log)
    ensures WalOk(wal + rest, offset, log + rest)
  {
    assert (wal + rest)[|wal + rest| - |log + rest|..] == wal[|wal| - |log|..] + rest;
  }

  lemma StoredParts(s: Server, a: AppendArgs)
    requires a.term >= s.node.term && !PrevMismatch(Acknowledge(s.node, a), a)
    requires Truncated(Acknowledge(s.node, a), s.disk.wal, a.entries).Some?
    requires !Gap(Acknowledge(s.node, a), a)
    ensures var m := Acknowledge(s.node, a);
      var wal := Truncated(m, s.disk.wal, a.entries).value + Rest(m, a.entries);
      StoreAppend(s, a) == (Server(Accepted(m, a), s.disk.(wal := wal)), AppendReply(m.term, true, 0))
  {
  }

  lemma StoredLog(s: Server, a: AppendArgs)
    requires Contiguous(s.node.log, s.node.offset) && WellFormed(a) && a.term >= s.node.term
    requires var m := Acknowledge(s.node, a);
      && !PrevMismatch(m, a) && !Gap(m, a) && Truncated(m, s.disk.wal, a.entries).Some?
    ensures var m := Acknowledge(s.node, a);
      var t := StoreAppend(s, a).0;
      && t.node.log == Cut(m, a.entries).log + Rest(m, a.entries) && Contiguous(t.node.log, m.offset)
      && t.node.id == s.node.id && t.node.peers == s.node.peers
      && t.disk == s.disk.(wal := Truncated(m, s.disk.wal, a.entries).value + Rest(m, a.entries))
  {
    var m := Acknowledge(s.node, a);
    assert Contiguous(Cut(m, a.entries).log + Rest(m, a.entries), m.offset) by {
      GapMeaning(m, a);
      MergeRefinesSimpleMerge(m, a);
    }
    StoredParts(s, a);
    AcceptedFrame(m, a);
  }

  /** Every AppendEntries with a contiguous message keeps memory, WAL and snapshot in agreement, on the
      merged history - as long as conflicts lie above what is applied and above the first index held. */
  lemma StoreKeepsAgreement(s: Server, history: seq<Entry>, a: AppendArgs)
    requires Agrees(s, history) && WellFormed(a)
    requires a.term >= s.node.term && !PrevMismatch(Acknowledge(s.node, a), a) ==>
      SafeConflict(Acknowledge(s.node, a), a)
    ensures Agrees(StoreAppend(s, a).0, NewHistory(s, history, a))
    ensures StoreAppend(s, a).0.node.offset == s.node.offset && StoreAppend(s, a).0.node.applied >= s.node.applied
  {
    var m := Acknowledge(s.node, a);
    SplitAt(history, s.node.offset);
    if a.term >= s.node.term && !PrevMismatch(m, a) {
      LogContiguous(m, history);
      CutOfLog(m, a);
      MergeOnDisk(m, s.disk.wal, a);
      GapMeaning(m, a);
      if !Gap(m, a) {
        StoredParts(s, a);
        AcceptKeepsMemory(m, a, history);
        AppendedOnDisk(Truncated(m, s.disk.wal, a.entries).value, m.offset, Cut(m, a.entries).log, Rest(m, a.entries));
      }
    }
  }

  /** When an accepted message is merged, the history keeps what has been applied if and only if the
      conflict, if there is one, lies above lastApplied. */
  lemma AppliedSurvives(s: Server, history: seq<Entry>, a: AppendArgs)
    requires MemoryOk(s.node, history) && WellFormed(a) && Stores(s, a)
    requires Truncated(Acknowledge(s.node, a), s.disk.wal, a.entries).Some?
    ensures var c := ScanFrom(Acknowledge(s.node, a), a.entries, 0);
      var history' := NewHistory(s, history, a);
      s.node.applied <= |history'| && history'[..s.node.applied] == history[..s.node.applied]
      <==> (c.conflict ==> a.entries[c.from].index > s.node.applied)
  {
    var m := Acknowledge(s.node, a);
    var c := ScanFrom(m, a.entries, 0);
    LogContiguous(s.node, history);
    StoredLog(s, a);
    var cut, rest := Cut(m, a.entries).log, Rest(m, a.entries);
    if c.conflict {
      var p := m.Pos(a.entries[c.from].index);
      ConflictMeaning(m, a);
      ReplacedFrom(history, s.node.offset, p, rest, s.node.applied);
    } else {
      ExtendedBy(history, s.node.offset, rest, s.node.applied);
    }
  }

  lemma ConflictMeaning(m: Node, a: AppendArgs)
    requires WellFormed(a) && m.offset + |m.log| == m.LastIndex() && Contiguous(m.log, m.offset)
    requires ScanFrom(m, a.entries, 0).conflict
    ensures var e := a.entries[ScanFrom(m, a.entries, 0).from];
      var p := m.Pos(e.index);
      && m.Has(e.index) && e.index == m.offset + 1 + p && 0 <= p < |m.log|
      && Rest(m, a.entries) != [] && Rest(m, a.entries)[0] == e
      && Cut(m, a.entries).log == m.log[..p] && m.log[p].term != e.term
  {
    ScanMeaning(m, a, 0);
  }

  lemma ReplacedFrom(history: seq<Entry>, offset: nat, p: nat, rest: seq<Entry>, applied: nat)
    requires offset <= applied <= |history| && offset + p < |history| && rest != [] && rest[0] != history[offset + p]
    ensures var history' := history[..offset] + (history[offset..][..p] + rest);
      applied <= |history'| && history'[..applied] == history[..applied] <==> applied <= offset + p
  {
    var history' := history[..offset] + (history[offset..][..p] + rest);
    assert history'[offset + p] == rest[0];
    assert history'[..offset + p] == history[..offset + p];
    if applied <= offset + p {
      assert history'[..applied] == history'[..offset + p][..applied];
      assert history[..applied] == history[..offset + p][..applied];
    } else if applied <= |history'| {
      assert history'[..applied][offset + p] != history[..applied][offset + p];
    }
  }

  lemma ExtendedBy(history: seq<Entry>, offset: nat, rest: seq<Entry>, applied: nat)
    requires offset <= |history| && applied <= |history|
    ensures var history' := history[..offset] + (history[offset..] + rest);
      applied <= |history'| && history'[..applied] == history[..applied]
  {
    assert history[..offset] + (history[offset..] + rest) == history + rest;
  }

  /** Whatever the merge replaces, the effects already applied stay: the map goes on from where it was. */
  lemma EffectsStay(s: Server, history: seq<Entry>, a: AppendArgs)
    requires MemoryOk(s.node, history) && WellFormed(a) && Stores(s, a)
    requires Truncated(Acknowledge(s.node, a), s.disk.wal, a.entries).Some?
    ensures var n, n' := s.node, StoreAppend(s, a).0.node;
      if n.applied < n'.commit then
        n'.commit <= n.offset + |n'.log|
        && n'.kv == ReplayIndices(n.kv, n'.log, n.offset, n.applied, n'.commit)
      else n'.kv == n.kv && n'.applied == n.applied
  {
    StoredCommit(s, history, a);
    var f := Merged(Acknowledge(s.node, a), a);
    CatchUpEffects(f);
  }

  lemma StoredCommit(s: Server, history: seq<Entry>, a: AppendArgs)
    requires MemoryOk(s.node, history) && WellFormed(a) && Stores(s, a)
    requires Truncated(Acknowledge(s.node, a), s.disk.wal, a.entries).Some?
    ensures var f := Merged(Acknowledge(s.node, a), a);
      && StoreAppend(s, a).0.node == CatchUp(f)
      && f.kv == s.node.kv && f.applied == s.node.applied >= f.offset == s.node.offset
      && (f.applied < f.commit ==> f.commit <= f.offset + |f.log|)
  {
    var m := Acknowledge(s.node, a);
    LogContiguous(s.node, history);
    StoredLog(s, a);
    StoredParts(s, a);
    MergedCommit(m, a, Merged(m, a));
  }

  lemma MergedCommit(m: Node, a: AppendArgs, f: Node)
    requires f == Merged(m, a) && m.commit <= m.applied
    requires Contiguous(Cut(m, a.entries).log + Rest(m, a.entries), m.offset)
    ensures f == m.(log := Cut(m, a.entries).log + Rest(m, a.entries), commit := f.commit)
    ensures f.applied < f.commit ==> f.commit <= f.offset + |f.log|
  {
  }

  /** A conflict at the first index the log holds, with no record before it to truncate after, empties the
      log in memory but leaves the WAL: a restart brings the conflicting entries back. */
  lemma ConflictAtOffset(s: Server, history: seq<Entry>, a: AppendArgs)
    requires Agrees(s, history) && WellFormed(a) && a.term >= s.node.term
    requires !PrevMismatch(Acknowledge(s.node, a), a)
    requires var c := ScanFrom(Acknowledge(s.node, a), a.entries, 0);
             c.conflict && a.entries[c.from].index == s.node.offset + 1
    requires Missing(s.disk.wal, s.node.offset)
    ensures StoreAppend(s, a) == (Server(Acknowledge(s.node, a).(log := []), s.disk), AppendReply(a.term, false, 0))
    ensures Recover(s.node.id, s.node.peers, s.disk).log == s.node.log != []
  {
    var m := Acknowledge(s.node, a);
    TruncateListMeaning(s.disk.wal, s.node.offset);
    FailedTruncation(m, s.disk.wal, a);
    assert StoreAppend(s, a) == (Server(m.(log := []), s.disk), AppendReply(a.term, false, 0));
    RestartAgrees(s, history);
  }

  lemma FailedTruncation(m: Node, wal: seq<Entry>, a: AppendArgs)
    requires var c := ScanFrom(m, a.entries, 0); c.conflict && a.entries[c.from].index == m.offset + 1
    requires TruncateList(wal, m.offset) == None && !PrevMismatch(m, a)
    ensures Truncated(m, wal, a.entries) == None && m.log != []
    ensures Merge(m, a, false, true) == (m.(log := []), AppendReply(m.term, false, 0))
  {
  }

  /** Recovery rebuilds the log in memory after a conflict if and only if the conflict is not at the first
      index the log holds, or a record of the offset itself is still in the WAL. */
  lemma ConflictRecovers(s: Server, history: seq<Entry>, a: AppendArgs)
    requires Agrees(s, history) && WellFormed(a) && a.term >= s.node.term
    requires !PrevMismatch(Acknowledge(s.node, a), a)
    requires var c := ScanFrom(Acknowledge(s.node, a), a.entries, 0);
             c.conflict && a.entries[c.from].index > s.node.applied
    ensures var c := ScanFrom(Acknowledge(s.node, a), a.entries, 0);
      var t := StoreAppend(s, a).0;
      Recover(t.node.id, t.node.peers, t.disk).log == t.node.log <==>
        a.entries[c.from].index != s.node.offset + 1 || !Missing(s.disk.wal, s.node.offset)
  {
    var m := Acknowledge(s.node, a);
    var c := ScanFrom(m, a.entries, 0);
    var t := StoreAppend(s, a).0;
    LogContiguous(m, history);
    if a.entries[c.from].index != s.node.offset + 1 {
      ScanMeaning(m, a, 0);
      StoreKeepsAgreement(s, history, a);
      RestartAgrees(t, NewHistory(s, history, a));
    } else if !Missing(s.disk.wal, s.node.offset) {
      ConflictAboveStale(s, history, a);
    } else {
      ConflictAtOffset(s, history, a);
    }
  }

  lemma AtOffsetIsStale(wal: seq<Entry>, offset: nat, log: seq<Entry>, i: nat)
    requires WalOk(wal, offset, log) && Contiguous(log, offset) && i < |wal| && wal[i].index <= offset
    ensures i < |wal| - |log|
  {
  }

  lemma StalePrefix(wal: seq<Entry>, offset: nat, log: seq<Entry>, t: seq<Entry>)
    requires WalOk(wal, offset, log) && t <= wal && |t| <= |wal| - |log|
    ensures WalOk(t, offset, [])
  {
  }

  /** Searching the WAL for the offset itself ends among the stale records. */
  lemma TruncateAmongStale(wal: seq<Entry>, offset: nat, log: seq<Entry>)
    requires WalOk(wal, offset, log) && Contiguous(log, offset) && !Missing(wal, offset)
    ensures TruncateList(wal, offset).Some? && WalOk(TruncateList(wal, offset).value, offset, [])
  {
    TruncateListMeaning(wal, offset);
    var t := TruncateList(wal, offset).value;
    assert wal[|t| - 1] == t[|t| - 1];
    AtOffsetIsStale(wal, offset, log, |t| - 1);
    StalePrefix(wal, offset, log, t);
  }

  /** With a record of the offset itself in the WAL, truncating behind it drops the whole log. */
  lemma ConflictAboveStale(s: Server, history: seq<Entry>, a: AppendArgs)
    requires Agrees(s, history) && WellFormed(a) && a.term >= s.node.term
    requires !PrevMismatch(Acknowledge(s.node, a), a)
    requires var c := ScanFrom(Acknowledge(s.node, a), a.entries, 0);
             c.conflict && a.entries[c.from].index == s.node.offset + 1 > s.node.applied
    requires !Missing(s.disk.wal, s.node.offset)
    ensures var t := StoreAppend(s, a).0;
      Recover(t.node.id, t.node.peers, t.disk).log == t.node.log
  {
    var m := Acknowledge(s.node, a);
    LogContiguous(m, history);
    TruncateAmongStale(s.disk.wal, m.offset, m.log);
    var t, rest := Truncated(m, s.disk.wal, a.entries).value, Rest(m, a.entries);
    assert Cut(m, a.entries).log == [] && [] + rest == rest;
    ConflictDoesNotGap(m, a);
    StoredLog(s, a);
    RestartAppended(StoreAppend(s, a).0, s, history, t, rest);
  }

  lemma RestartAppended(t: Server, s: Server, history: seq<Entry>, wal: seq<Entry>, rest: seq<Entry>)
    requires Agrees(s, history) && WalOk(wal, s.node.offset, []) && Contiguous(rest, s.node.offset)
    requires t.node.id == s.node.id && t.node.peers == s.node.peers && t.node.log == rest
    requires t.disk == s.disk.(wal := wal + rest)
    ensures Recover(t.node.id, t.node.peers, t.disk).log == t.node.log
  {
    RecoverAppended(s.node.id, s.node.peers, s.disk.snapshot, s.node.offset, history, wal, rest);
  }

  lemma RecoverAppended(i: nat, peers: set<nat>, snapshot: Option<Snapshot>, offset: nat, history: seq<Entry>,
                        wal: seq<Entry>, rest: seq<Entry>)
    requires Contiguous(history, 0) && offset <= |history| && SnapshotOk(snapshot, offset, history)
    requires WalOk(wal, offset, []) && Contiguous(rest, offset)
    ensures Recover(i, peers, Disk(wal + rest, snapshot)).log == rest
  {
    assert rest[..|rest|] == rest && [] + rest == rest;
    RecoverMerged(i, peers, snapshot, offset, history, wal, [], rest, |rest|);
  }

  lemma ConflictDoesNotGap(m: Node, a: AppendArgs)
    requires WellFormed(a) && ScanFrom(m, a.entries, 0).conflict
    ensures !Gap(m, a)
  {
    GapMeaning(m, a);
  }

  /** The disk when the node dies with j of the new entries appended. */
  function DiskAfter(s: Server, a: AppendArgs, j: nat): Disk {
    var m := Acknowledge(s.node, a);
    var t := Truncated(m, s.disk.wal, a.entries);
    var rest := Rest(m, a.entries);
    if t.None? || j > |rest| then s.disk else Disk(t.value + rest[..j], s.disk.snapshot)
  }

  /** The merged history without the entries not yet appended. */
  ghost function KeptAfter(s: Server, history: seq<Entry>, a: AppendArgs, j: nat): seq<Entry>
    requires s.node.offset <= |history|
  {
    var rest := Rest(Acknowledge(s.node, a), a.entries);
    var full := NewHistory(s, history, a);
    if j <= |rest| <= |full| then full[..|full| - |rest| + j] else history
  }

  ghost predicate Stores(s: Server, a: AppendArgs) {
    var m := Acknowledge(s.node, a);
    a.term >= s.node.term && !PrevMismatch(m, a) && !Gap(m, a)
  }

  lemma PartsOfCrash(s: Server, history: seq<Entry>, a: AppendArgs, j: nat, t: seq<Entry>, cut: seq<Entry>,
                     rest: seq<Entry>)
    requires Contiguous(s.node.log, s.node.offset) && s.node.offset <= |history| && WellFormed(a) && Stores(s, a)
    requires var m := Acknowledge(s.node, a);
      && Truncated(m, s.disk.wal, a.entries) == Some(t) && cut == Cut(m, a.entries).log
      && rest == Rest(m, a.entries) && j <= |rest|
    ensures DiskAfter(s, a, j) == Disk(t + rest[..j], s.disk.snapshot)
    ensures var full := history[..s.node.offset] + (cut + rest);
      KeptAfter(s, history, a, j) == full[..|full| - |rest| + j]
    ensures Contiguous(cut + rest, s.node.offset)
  {
    StoredLog(s, a);
  }

  /** A crash while the new entries are being appended loses only entries that are not on disk yet. */
  lemma CrashWhileAppending(s: Server, history: seq<Entry>, a: AppendArgs, j: nat)
    requires Agrees(s, history) && WellFormed(a) && Stores(s, a)
    requires SafeConflict(Acknowledge(s.node, a), a) && j <= |Rest(Acknowledge(s.node, a), a.entries)|
    ensures Truncated(Acknowledge(s.node, a), s.disk.wal, a.entries).Some?
    ensures |NewHistory(s, history, a)| >= |Rest(Acknowledge(s.node, a), a.entries)|
    ensures Rebuilds(s.node.id, s.node.peers, DiskAfter(s, a, j), KeptAfter(s, history, a, j))
    ensures |KeptAfter(s, history, a, j)| >= s.node.applied
  {
    var m := Acknowledge(s.node, a);
    LogContiguous(s.node, history);
    MergeOnDisk(m, s.disk.wal, a);
    var t, cut, rest := Truncated(m, s.disk.wal, a.entries).value, Cut(m, a.entries).log, Rest(m, a.entries);
    StoredLog(s, a);
    CutOfLog(m, a);
    PartsOfCrash(s, history, a, j, t, cut, rest);
    RecoverMerged(s.node.id, s.node.peers, s.disk.snapshot, s.node.offset, history, t, cut, rest, j);
  }

  lemma PrefixInRange(t: seq<Entry>, wal: seq<Entry>)
    requires t <= wal && AllInRange(wal)
    ensures AllInRange(t)
  {
  }

  lemma RestInRange(m: Node, entries: seq<Entry>)
    requires AllInRange(entries)
    ensures AllInRange(Rest(m, entries))
  {
  }

  /** What a restart makes of a WAL that has the cut log and the first j of the entries to append. */
  lemma RecoverMerged(i: nat, peers: set<nat>, snapshot: Option<Snapshot>, offset: nat, history: seq<Entry>,
                      wal: seq<Entry>, cut: seq<Entry>, rest: seq<Entry>, j: nat)
    requires Contiguous(history, 0) && offset <= |history| && SnapshotOk(snapshot, offset, history)
    requires WalOk(wal, offset, cut) && Contiguous(cut + rest, offset) && j <= |rest|
    ensures var full := history[..offset] + (cut + rest);
      var kept := full[..|full| - |rest| + j];
      && Rebuilds(i, peers, Disk(wal + rest[..j], snapshot), kept)
      && Recover(i, peers, Disk(wal + rest[..j], snapshot)).log == cut + rest[..j]
  {
    var full := history[..offset] + (cut + rest);
    var kept := full[..|full| - |rest| + j];
    KeptParts(history[..offset], cut, rest, j);
    AppendedOnDisk(wal, offset, cut, rest[..j]);
    assert Contiguous(kept, 0);
    RecoveryAgrees(i, peers, Disk(wal + rest[..j], snapshot), offset, kept);
  }

  lemma KeptParts<T>(h: seq<T>, log: seq<T>, rest: seq<T>, j: nat)
    requires j <= |rest|
    ensures var full := h + (log + rest);
      var kept := full[..|full| - |rest| + j];
      kept[|h|..] == log + rest[..j] && kept[..|h|] == h
  {
  }

  // ---- Installed snapshots ----

  /** What a restart makes of the disk after an install. */
  function RestartAfterInstall(s: Server, term: nat, x: Snapshot): Node {
    var t := ServeInstall(s, term, Some(x));
    Recover(t.node.id, t.node.peers, t.disk)
  }

  /** After an install the log in memory is empty, and a restart finds in the WAL whatever lies above the
      snapshot's index. It finds the empty log again if and only if nothing does - wherever the index is. */
  lemma InstallRecovers(s: Server, term: nat, x: Snapshot)
    requires term >= s.node.term
    ensures var r := RestartAfterInstall(s, term, x);
      && ServeInstall(s, term, Some(x)).node.log == []
      && r.log == Survivors(s.disk.wal, x.index) && r.offset == x.index
      && (r.log == [] <==> UpTo(s.disk.wal, x.index))
  {
    var survivors := Survivors(s.disk.wal, x.index);
    NoSurvivors(s.disk.wal, x.index);
    ReplayFromLog(Loaded(s.node.id, s.node.peers, Some(x)).(log := survivors), survivors);
  }

  /** An installed snapshot that is the replay of a history as long as its index leaves memory and disk in
      agreement on that history if and only if no WAL record lies above it. */
  lemma InstallKeepsAgreement(s: Server, term: nat, x: Snapshot, sent: seq<Entry>)
    requires term >= s.node.term
    requires Contiguous(sent, 0) && |sent| == x.index && x.data == Replay(map[], sent)
    ensures Agrees(ServeInstall(s, term, Some(x)), sent) <==> UpTo(s.disk.wal, x.index)
  {
    var wal, t := s.disk.wal, ServeInstall(s, term, Some(x));
    WholeSequence(sent);
    WholeSequence(wal);
    assert MemoryOk(t.node, sent) && SnapshotOk(t.disk.snapshot, x.index, sent);
    assert WalOk(wal, x.index, []) <==> UpTo(wal, x.index);
  }

  lemma WholeSequence<T>(s: seq<T>)
    ensures s[..|s|] == s && s[|s|..] == []
  {
  }

  /** That is so when the local log ends at or before the snapshot. */
  lemma NothingAbove(s: Server, history: seq<Entry>, index: nat)
    requires Agrees(s, history) && |history| <= index
    ensures UpTo(s.disk.wal, index)
  {
    LogContiguous(s.node, history);
    AllStale(s.disk.wal, s.node.offset, s.node.log, index);
  }

  lemma AllStale(wal: seq<Entry>, offset: nat, log: seq<Entry>, index: nat)
    requires WalOk(wal, offset, log) && Contiguous(log, offset) && offset + |log| <= index && offset <= index
    ensures UpTo(wal, index)
  {
    assert wal == wal[..|wal| - |log|] + log;
  }

  /** A snapshot older than the local log empties the log in memory, but a restart brings the entries of the
      old log behind it back. */
  lemma StaleInstallResurrects(s: Server, history: seq<Entry>, term: nat, x: Snapshot)
    requires Agrees(s, history) && term >= s.node.term && s.node.offset <= x.index < |history|
    ensures ServeInstall(s, term, Some(x)).node.log == []
    ensures RestartAfterInstall(s, term, x).log == history[x.index..] != []
  {
    InstallRecovers(s, term, x);
    Newer(s.disk.wal, s.node.log, s.node.offset, history, x.index);
    SurvivorsAreLog(s.disk.wal, x.index, history[x.index..]);
  }

  /** A snapshot older than what the node has already compacted away is worse: a restart puts the log behind
      the wrong offset, so that every position holds the entry of another index. */
  lemma StaleInstallShifts(s: Server, history: seq<Entry>, term: nat, x: Snapshot, i: nat)
    requires Agrees(s, history) && term >= s.node.term && x.index < s.node.offset && i < |s.node.log|
    requires UpTo(s.disk.wal[..|s.disk.wal| - |s.node.log|], x.index)
    ensures RestartAfterInstall(s, term, x).EntryAt(x.index + 1 + i) == Some(s.node.log[i])
    ensures s.node.log[i].index == s.node.offset + 1 + i != x.index + 1 + i
  {
    ShiftedLog(s, history, term, x);
    ShiftedEntry(RestartAfterInstall(s, term, x), s.node.log, s.node.offset, x.index, i);
  }

  lemma ShiftedLog(s: Server, history: seq<Entry>, term: nat, x: Snapshot)
    requires Agrees(s, history) && term >= s.node.term && x.index < s.node.offset
    requires UpTo(s.disk.wal[..|s.disk.wal| - |s.node.log|], x.index)
    ensures RestartAfterInstall(s, term, x).log == s.node.log && RestartAfterInstall(s, term, x).offset == x.index
    ensures Contiguous(s.node.log, s.node.offset)
  {
    LogContiguous(s.node, history);
    LogSurvives(s.disk.wal, s.node.offset, s.node.log, x.index);
    InstallRecovers(s, term, x);
    var r := RestartAfterInstall(s, term, x);
    assert r.log == Survivors(s.disk.wal, x.index);
  }

  lemma ShiftedEntry(r: Node, log: seq<Entry>, offset: nat, index: nat, i: nat)
    requires r.log == log && r.offset == index < offset && Contiguous(log, offset) && i < |log|
    ensures r.EntryAt(index + 1 + i) == Some(log[i]) && log[i].index == offset + 1 + i != index + 1 + i
  {
  }

  lemma LogSurvives(wal: seq<Entry>, offset: nat, log: seq<Entry>, index: nat)
    requires WalOk(wal, offset, log) && Contiguous(log, offset) && index <= offset && UpTo(wal[..|wal| - |log|], index)
    ensures Survivors(wal, index) == log
  {
    var before := wal[..|wal| - |log|];
    assert wal == before + log;
    SurvivorsConcat(before, log, index);
    NoSurvivors(before, index);
    AllSurvive(log, index);
    assert [] + log == log;
  }

  /** The WAL is also in order for a higher offset: more of it counts as stale. */
  lemma Newer(wal: seq<Entry>, log: seq<Entry>, offset: nat, history: seq<Entry>, index: nat)
    requires Contiguous(history, 0) && offset <= index <= |history| && log == history[offset..]
    requires WalOk(wal, offset, log)
    ensures WalOk(wal, index, history[index..]) && Contiguous(history[index..], index)
  {
    var newer, j := history[index..], index - offset;
    assert newer == log[j..];
    if j <= |log| {
      var n := |wal| - |log|;
      assert wal[n + j..] == wal[n..][j..];
      assert wal[..n + j] == wal[..n] + log[..j];
    }
  }
}
