/** One node with the bytes on its disk: the WAL, the temporary file a compaction may have left, and the
    snapshot. These functions specify the methods of the class in Raft.dfy. */
module Machines {
  import opened Common
  import opened RaftNode
  import opened WalFormat
  import opened Leftovers
  import opened SnapshotCodec
  import opened Memory
  import opened Servers

  datatype Files = Files(live: Bytes, temp: Option<Bytes>, snapshot: Option<Snapshot>)

  datatype Machine = Machine(node: Node, files: Files)

  /** The WAL as the list of records it reads back as. */
  function View(crc: Checksum, m: Machine): Server {
    Server(m.node, Disk(ReadRecords(crc, m.files.live), m.files.snapshot))
  }

  // ---- Operations ----

  /** The live file after the merge loop's truncation: None when there is no record to truncate after. */
  function Truncate(crc: Checksum, n: Node, live: Bytes, entries: seq<Entry>): Option<Bytes> {
    var s := ScanFrom(n, entries, 0);
    if !s.conflict then Some(live)
    else
      match TruncateList(ReadRecords(crc, live), entries[s.from].index - 1)
      case None => None
      case Some(t) => Some(EncodeAll(crc, t))
  }

  /** HandleAppendEntries up to, but without, the snapshot at its end. */
  function Store(crc: Checksum, m: Machine, a: AppendArgs): (Machine, AppendReply) {
    if a.term < m.node.term then (m, AppendReply(m.node.term, false, 0))
    else
      var n := Acknowledge(m.node, a);
      var t := Truncate(crc, n, m.files.live, a.entries);
      var (n', r) := HandleAppend(m.node, a, t.Some?, true);
      var live :=
        if PrevMismatch(n, a) || t.None? then m.files.live
        else if Gap(n, a) then t.value
        else t.value + EncodeAll(crc, Rest(n, a.entries));
      (Machine(n', m.files.(live := live)), r)
  }

  /** What the snapshot being taken leaves of the log's entries. */
  function Surviving(crc: Checksum, m: Machine): seq<Entry> {
    Survivors(ReadRecords(crc, m.files.live), m.node.applied)
  }

  /** The compacted WAL goes behind whatever is in the temporary file, which then becomes the live file. */
  function MaybeSnapshot(crc: Checksum, m: Machine): Machine {
    match DueSnapshot(m.node)
    case None => m
    case Some(x) =>
      Machine(SnapshotNode(m.node), Files(LeftIn(m.files.temp) + EncodeAll(crc, Surviving(crc, m)), None, Some(x)))
  }

  /** What a crash inside maybeSnapshot leaves on disk: before the snapshot is saved, after it is saved, with
      any number of bytes of the new WAL written, and after the rename. */
  ghost function CrashPoints(crc: Checksum, m: Machine): seq<Files> {
    match DueSnapshot(m.node)
    case None => [m.files]
    case Some(x) =>
      var trace := CompactionTrace(crc, Image(m.files.live, m.files.temp), Surviving(crc, m));
      [m.files] + seq(|trace|, k requires 0 <= k < |trace| => Files(trace[k].live, trace[k].temp, Some(x)))
  }

  /** HandleAppendEntries. */
  function ServeAppend(crc: Checksum, m: Machine, a: AppendArgs): (Machine, AppendReply) {
    var (t, r) := Store(crc, m, a);
    (if r.success then MaybeSnapshot(crc, t) else t, r)
  }

  function ServePropose(crc: Checksum, m: Machine, data: Bytes): Machine {
    Machine(Propose(m.node, data), m.files.(live := m.files.live + Record(crc, Proposal(m.node, data))))
  }

  /** becomeLeader. */
  function ServeLead(crc: Checksum, m: Machine): Machine {
    Machine(BecomeLeader(m.node), m.files.(live := m.files.live + Record(crc, NoOp(m.node))))
  }

  /** The goroutine of requestVotes on a reply. */
  function ServeVote(crc: Checksum, m: Machine, r: VoteReply): (t: Machine)
    ensures t.node == HandleVoteReply(m.node, r)
  {
    if Wins(m.node, r) then ServeLead(crc, m.(node := m.node.(votes := m.node.votes + 1)))
    else m.(node := HandleVoteReply(m.node, r))
  }

  /** tryAdvanceCommitIndex. */
  ghost function ServeAdvance(crc: Checksum, m: Machine): Machine {
    if CanAdvance(m.node) then MaybeSnapshot(crc, m.(node := TryAdvance(m.node))) else m
  }

  /** The heartbeat goroutine on a reply to the message `sent` to peer p. */
  ghost function ServeReply(crc: Checksum, m: Machine, p: nat, sent: AppendArgs, r: AppendReply): Machine {
    var t := m.(node := RecordReply(m.node, p, sent, r));
    if r.success && sent.entries != [] then ServeAdvance(crc, t) else t
  }

  /** HandleInstallSnapshot, given what its payload decodes to: the WAL is not touched. */
  function Install(m: Machine, term: nat, payload: Option<Snapshot>): Machine {
    var s := ServeInstall(Server(m.node, Disk([], m.files.snapshot)), term, payload);
    Machine(s.node, m.files.(snapshot := s.disk.snapshot))
  }

  /** The node dies and is started again on these files. */
  function Restarted(crc: Checksum, m: Machine, files: Files): Machine {
    Machine(Recover(m.node.id, m.node.peers, Disk(ReadRecords(crc, files.live), files.snapshot)), files)
  }

  // ---- Bytes and records ----

  /** Memory, WAL, snapshot and history agree, and a leftover holds nothing above what is applied. */
  ghost predicate Sound(crc: Checksum, m: Machine, history: seq<Entry>) {
    Agrees(View(crc, m), history) && LeftoverOk(crc, LeftIn(m.files.temp), m.node.applied)
  }

  lemma TruncateReads(crc: Checksum, n: Node, live: Bytes, entries: seq<Entry>)
    ensures Truncate(crc, n, live, entries).Some? <==> Truncated(n, ReadRecords(crc, live), entries).Some?
    ensures Truncate(crc, n, live, entries).Some? ==>
      ReadRecords(crc, Truncate(crc, n, live, entries).value) == Truncated(n, ReadRecords(crc, live), entries).value
    ensures ScanFrom(n, entries, 0).conflict && Truncate(crc, n, live, entries).Some? ==>
      Whole(crc, Truncate(crc, n, live, entries).value)
  {
    var s := ScanFrom(n, entries, 0);
    if s.conflict {
      match TruncateList(ReadRecords(crc, live), entries[s.from].index - 1)
      case None =>
      case Some(t) =>
        ReadIsPrefix(crc, live);
        PrefixInRange(t, ReadRecords(crc, live));
        ReadBack(crc, t);
    }
  }

  /** New records are appended only where they will be read back: not behind a torn record. A truncation
      removes one. */
  ghost predicate Appendable(crc: Checksum, m: Machine, a: AppendArgs) {
    var n := Acknowledge(m.node, a);
    var t := Truncate(crc, n, m.files.live, a.entries);
    a.term >= m.node.term && !PrevMismatch(n, a) && !Gap(n, a) && t.Some? && Rest(n, a.entries) != [] ==>
      Whole(crc, t.value)
  }

  /** On a WAL without a torn end, the bytes do what the records do. */
  lemma StoreIsStoreAppend(crc: Checksum, m: Machine, a: AppendArgs)
    requires AllInRange(a.entries) && Appendable(crc, m, a)
    ensures View(crc, Store(crc, m, a).0) == StoreAppend(View(crc, m), a).0
    ensures Store(crc, m, a).1 == StoreAppend(View(crc, m), a).1
    ensures Store(crc, m, a).0.files.temp == m.files.temp
  {
    if a.term >= m.node.term {
      var n := Acknowledge(m.node, a);
      var t := Truncate(crc, n, m.files.live, a.entries);
      TruncateReads(crc, n, m.files.live, a.entries);
      if t.Some? { StoredBytes(crc, t.value, Rest(n, a.entries), a.entries, n); }
    }
  }

  lemma StoredBytes(crc: Checksum, live: Bytes, rest: seq<Entry>, entries: seq<Entry>, n: Node)
    requires AllInRange(entries) && rest == Rest(n, entries)
    ensures rest != [] && Whole(crc, live) ==>
      ReadRecords(crc, live + EncodeAll(crc, rest)) == ReadRecords(crc, live) + rest
    ensures rest == [] ==>
      live + EncodeAll(crc, rest) == live && ReadRecords(crc, live) + rest == ReadRecords(crc, live)
  {
    RestInRange(n, entries);
    if rest != [] && Whole(crc, live) { AppendToWhole(crc, live, rest); }
  }

  // ---- Snapshots ----

  /** The snapshot that is due, if one is, finds its leftover clear. */
  ghost predicate SnapshotClear(crc: Checksum, m: Machine) {
    DueSnapshot(m.node).Some? ==> Clear(crc, LeftIn(m.files.temp), Surviving(crc, m))
  }

  lemma SurvivingIs(crc: Checksum, m: Machine, history: seq<Entry>)
    requires Agrees(View(crc, m), history) && DueSnapshot(m.node).Some?
    ensures m.node.applied <= |history| && Surviving(crc, m) == history[m.node.applied..]
    ensures AllInRange(Surviving(crc, m)) && AllAbove(Surviving(crc, m), m.node.applied)
    ensures UpTo(Surviving(crc, m), |history|)
  {
    SavedBeforeCompaction(View(crc, m), history);
    SurvivorsAreLog(ReadRecords(crc, m.files.live), m.node.applied, history[m.node.applied..]);
    ReadIsPrefix(crc, m.files.live);
    SurvivorsInRange(ReadRecords(crc, m.files.live), m.node.applied);
  }

  lemma CompactedView(crc: Checksum, m: Machine, history: seq<Entry>)
    requires Sound(crc, m, history) && SnapshotClear(crc, m) && DueSnapshot(m.node).Some?
    ensures var stale := ReadRecords(crc, LeftIn(m.files.temp));
      && View(crc, MaybeSnapshot(crc, m))
         == Server(SnapshotNode(m.node), Disk(stale + Surviving(crc, m), DueSnapshot(m.node)))
      && UpTo(stale, m.node.applied)
  {
    SurvivingIs(crc, m, history);
    CompactionRecovers(crc, LeftIn(m.files.temp), Surviving(crc, m), m.node.applied);
  }

  lemma SnapshotKeepsSound(crc: Checksum, m: Machine, history: seq<Entry>)
    requires Sound(crc, m, history) && SnapshotClear(crc, m)
    ensures Sound(crc, MaybeSnapshot(crc, m), history)
  {
    if DueSnapshot(m.node).Some? {
      CompactedView(crc, m, history);
      SnapshotKeepsAgreement(View(crc, m), history, ReadRecords(crc, LeftIn(m.files.temp)));
      NothingLeft(crc, MaybeSnapshot(crc, m).node.applied);
    }
  }

  /** The exact condition: after a snapshot a restart finds the compacted log if and only if the leftover of
      an earlier, crashed compaction was clear. */
  lemma SnapshotIsRecoverable(crc: Checksum, m: Machine, history: seq<Entry>)
    requires Sound(crc, m, history) && DueSnapshot(m.node).Some?
    ensures var t := MaybeSnapshot(crc, m);
      Restarted(crc, t, t.files).node.log == t.node.log <==> Clear(crc, LeftIn(m.files.temp), Surviving(crc, m))
  {
    SurvivingIs(crc, m, history);
    CompactionRecovers(crc, LeftIn(m.files.temp), Surviving(crc, m), m.node.applied);
    SnapshotRecovers(View(crc, m), history, ReadRecords(crc, MaybeSnapshot(crc, m).files.live));
  }

  lemma RestartAfterSnapshot(crc: Checksum, m: Machine)
    requires DueSnapshot(m.node).Some?
    ensures var t := MaybeSnapshot(crc, m);
      Restarted(crc, t, t.files).node.log == Survivors(ReadRecords(crc, t.files.live), m.node.applied)
  {
    var n, t := m.node, MaybeSnapshot(crc, m);
    var survivors := Survivors(ReadRecords(crc, t.files.live), n.applied);
    ReplayFromLog(Loaded(n.id, n.peers, DueSnapshot(n)).(log := survivors), survivors);
  }

  /** Four bytes of a torn record are enough: after the next snapshot a restart does not find the log, for
      every checksum function. */
  lemma TornLeftoverLosesLog(crc: Checksum, m: Machine, history: seq<Entry>, d: Entry)
    requires Sound(crc, m, history) && DueSnapshot(m.node).Some?
    requires m.node.applied < |history| < TWO_TO_THE_32
    requires d.InRange() && m.files.temp == Some(Record(crc, d)[..4])
    ensures var t := MaybeSnapshot(crc, m);
      && t.node.log == history[m.node.applied..] != []
      && Restarted(crc, t, t.files).node.log != t.node.log
  {
    SurvivingIs(crc, m, history);
    LogContiguous(m.node, history);
    FourBytesHide(crc, d, Surviving(crc, m), m.node.applied);
    RestartAfterSnapshot(crc, m);
    CompactionKeepsEntries(m.node, history, 0);
  }

  /** What it finds instead is an empty log, or one that begins with an entry that never existed: its index is
      the first surviving entry's term moved up by 32 bits. */
  lemma TornLeftoverMisleads(crc: Checksum, m: Machine, history: seq<Entry>, d: Entry)
    requires Sound(crc, m, history) && DueSnapshot(m.node).Some?
    requires m.node.applied < |history| < TWO_TO_THE_32 && 0 < history[m.node.applied].term < TWO_TO_THE_32
    requires d.InRange() && m.files.temp == Some(Record(crc, d)[..4])
    ensures var t := MaybeSnapshot(crc, m);
      var found := Restarted(crc, t, t.files).node.log;
      found == [] || found[0].index == history[m.node.applied].term * TWO_TO_THE_32
  {
    SurvivingIs(crc, m, history);
    RestartAfterSnapshot(crc, m);
    FourBytesMislead(crc, d, Surviving(crc, m), m.node.applied);
  }

  /** Such a leftover is what a crash leaves four bytes into the compaction. */
  lemma TornLeftoverArises(crc: Checksum, m: Machine, history: seq<Entry>)
    requires Sound(crc, m, history) && DueSnapshot(m.node).Some? && m.node.applied < |history| && m.files.temp == None
    ensures 6 < |CrashPoints(crc, m)|
    ensures CrashPoints(crc, m)[6].temp == Some(Record(crc, history[m.node.applied])[..4])
  {
    SurvivingIs(crc, m, history);
    FirstFourBytes(crc, Surviving(crc, m));
    CrashPointIs(crc, m, 6);
  }

  lemma FirstFourBytes(crc: Checksum, es: seq<Entry>)
    requires es != []
    ensures |EncodeAll(crc, es)| >= OVERHEAD && CrashedTemp(crc, None, es, 5) == Some(Record(crc, es[0])[..4])
  {
    assert [] + EncodeAll(crc, es)[..4] == Record(crc, es[0])[..4];
  }

  // ---- Restarts ----

  lemma RestartIsSound(crc: Checksum, m: Machine, files: Files, offset: nat, history: seq<Entry>)
    requires Contiguous(history, 0) && offset <= |history|
    requires WalOk(ReadRecords(crc, files.live), offset, history[offset..])
    requires SnapshotOk(files.snapshot, offset, history)
    requires LeftoverOk(crc, LeftIn(files.temp), |history|)
    ensures Sound(crc, Restarted(crc, m, files), history)
  {
    RecoveryAgrees(m.node.id, m.node.peers, Disk(ReadRecords(crc, files.live), files.snapshot), offset, history);
  }

  lemma RestartKeepsSound(crc: Checksum, m: Machine, history: seq<Entry>)
    requires Sound(crc, m, history)
    ensures Sound(crc, Restarted(crc, m, m.files), history)
  {
    LeftoverGrows(crc, LeftIn(m.files.temp), m.node.applied, |history|);
    RestartIsSound(crc, m, m.files, m.node.offset, history);
  }

  lemma CrashPointIs(crc: Checksum, m: Machine, k: nat)
    requires DueSnapshot(m.node).Some? && k < |CrashPoints(crc, m)|
    ensures var last := |EncodeAll(crc, Surviving(crc, m))| + 3;
      && |CrashPoints(crc, m)| == last + 1
      && (k == 0 ==> CrashPoints(crc, m)[k] == m.files)
      && (0 < k < last ==>
            CrashPoints(crc, m)[k]
            == Files(m.files.live, CrashedTemp(crc, m.files.temp, Surviving(crc, m), k - 1), DueSnapshot(m.node)))
      && (k == last ==> CrashPoints(crc, m)[k] == MaybeSnapshot(crc, m).files)
  {
    var before := Image(m.files.live, m.files.temp);
    TraceAt(crc, before, Surviving(crc, m), 0);
    if k > 0 { TraceAt(crc, before, Surviving(crc, m), k - 1); }
  }

  /** A crash anywhere inside maybeSnapshot, at any byte of the temporary file, loses nothing. */
  lemma CrashInSnapshot(crc: Checksum, m: Machine, history: seq<Entry>, k: nat)
    requires Sound(crc, m, history) && SnapshotClear(crc, m) && k < |CrashPoints(crc, m)|
    ensures Sound(crc, Restarted(crc, m, CrashPoints(crc, m)[k]), history)
  {
    if DueSnapshot(m.node).None? || k == 0 {
      CrashBeforeSave(crc, m, history);
    } else if k == |EncodeAll(crc, Surviving(crc, m))| + 3 {
      CrashAfterRename(crc, m, history, k);
    } else {
      CrashBeforeRename(crc, m, history, k);
    }
  }

  lemma CrashBeforeSave(crc: Checksum, m: Machine, history: seq<Entry>)
    requires Sound(crc, m, history)
    ensures CrashPoints(crc, m)[0] == m.files
    ensures Sound(crc, Restarted(crc, m, CrashPoints(crc, m)[0]), history)
  {
    if DueSnapshot(m.node).Some? { CrashPointIs(crc, m, 0); }
    RestartKeepsSound(crc, m, history);
  }

  lemma CrashAfterRename(crc: Checksum, m: Machine, history: seq<Entry>, k: nat)
    requires Sound(crc, m, history) && SnapshotClear(crc, m) && DueSnapshot(m.node).Some?
    requires k < |CrashPoints(crc, m)| && k == |EncodeAll(crc, Surviving(crc, m))| + 3
    ensures Sound(crc, Restarted(crc, m, CrashPoints(crc, m)[k]), history)
  {
    CrashPointIs(crc, m, k);
    SnapshotKeepsSound(crc, m, history);
    RestartKeepsSound(crc, MaybeSnapshot(crc, m), history);
    SameRestart(crc, m, MaybeSnapshot(crc, m), CrashPoints(crc, m)[k]);
  }

  lemma SameRestart(crc: Checksum, m: Machine, t: Machine, files: Files)
    requires t == MaybeSnapshot(crc, m)
    ensures Restarted(crc, t, files) == Restarted(crc, m, files)
  {
    assert t.node.id == m.node.id && t.node.peers == m.node.peers;
  }

  lemma CrashBeforeRename(crc: Checksum, m: Machine, history: seq<Entry>, k: nat)
    requires Sound(crc, m, history) && SnapshotClear(crc, m) && DueSnapshot(m.node).Some?
    requires 0 < k < |CrashPoints(crc, m)| && k != |EncodeAll(crc, Surviving(crc, m))| + 3
    ensures Sound(crc, Restarted(crc, m, CrashPoints(crc, m)[k]), history)
  {
    CrashPointIs(crc, m, k);
    CrashedLeftoverOk(crc, m, history, k - 1);
    SavedBeforeCompaction(View(crc, m), history);
    RestartIsSound(crc, m, CrashPoints(crc, m)[k], m.node.applied, history);
  }

  lemma CrashedLeftoverOk(crc: Checksum, m: Machine, history: seq<Entry>, k: nat)
    requires Sound(crc, m, history) && SnapshotClear(crc, m) && DueSnapshot(m.node).Some?
    requires k <= |EncodeAll(crc, Surviving(crc, m))| + 1
    ensures LeftoverOk(crc, LeftIn(CrashedTemp(crc, m.files.temp, Surviving(crc, m), k)), |history|)
  {
    SurvivingIs(crc, m, history);
    CrashedTempOk(crc, m.files.temp, Surviving(crc, m), k, m.node.applied, |history|);
  }

  // ---- Appending ----

  /** Appending one record of the node's own, cut after k bytes by a crash or written in full. */
  lemma AppendIsSound(crc: Checksum, m: Machine, history: seq<Entry>, e: Entry, k: nat)
    requires Sound(crc, m, history) && Whole(crc, m.files.live) && e.InRange() && e.index == m.node.LastIndex() + 1
    requires k <= |Record(crc, e)|
    ensures Sound(crc, Restarted(crc, m, m.files.(live := m.files.live + Record(crc, e)[..k])),
                  if k == |Record(crc, e)| then history + [e] else history)
  {
    var files := m.files.(live := m.files.live + Record(crc, e)[..k]);
    CutRecord(crc, m.files.live, e, k);
    if k == |Record(crc, e)| {
      FullyWritten(crc, m, history, e, files);
    } else {
      NotWritten(crc, m, history, files);
    }
  }

  lemma FullyWritten(crc: Checksum, m: Machine, history: seq<Entry>, e: Entry, files: Files)
    requires Sound(crc, m, history) && e.index == m.node.LastIndex() + 1
    requires files == m.files.(live := files.live)
    requires ReadRecords(crc, files.live) == ReadRecords(crc, m.files.live) + [e]
    ensures Sound(crc, Restarted(crc, m, files), history + [e])
  {
    var t := m.(node := m.node.(log := m.node.log + [e]), files := files);
    WrittenIsSound(crc, m, t, history, e);
    RestartKeepsSound(crc, t, history + [e]);
  }

  lemma NotWritten(crc: Checksum, m: Machine, history: seq<Entry>, files: Files)
    requires Sound(crc, m, history)
    requires files == m.files.(live := files.live)
    requires ReadRecords(crc, files.live) == ReadRecords(crc, m.files.live) + []
    ensures Sound(crc, Restarted(crc, m, files), history)
  {
    assert ReadRecords(crc, m.files.live) + [] == ReadRecords(crc, m.files.live);
    RestartKeepsSound(crc, m.(files := files), history);
  }

  lemma CutRecord(crc: Checksum, live: Bytes, e: Entry, k: nat)
    requires Whole(crc, live) && e.InRange() && k <= |Record(crc, e)|
    ensures ReadRecords(crc, live + Record(crc, e)[..k])
            == ReadRecords(crc, live) + if k == |Record(crc, e)| then [e] else []
  {
    if k == |Record(crc, e)| {
      EncodeOne(crc, e);
      AppendToWhole(crc, live, [e]);
      assert Record(crc, e)[..k] == Record(crc, e);
    } else {
      ReadIsPrefix(crc, live);
      TornRecord(crc, e, k);
      ReadWithTail(crc, ReadRecords(crc, live), Record(crc, e)[..k]);
      assert ReadRecords(crc, live) + [] == ReadRecords(crc, live);
    }
  }

  lemma WrittenIsSound(crc: Checksum, m: Machine, t: Machine, history: seq<Entry>, e: Entry)
    requires Sound(crc, m, history) && e.index == m.node.LastIndex() + 1
    requires t.node.log == m.node.log + [e] && t.node.offset == m.node.offset && t.node.applied == m.node.applied
    requires t.node.commit == m.node.commit && t.node.kv == m.node.kv
    requires t.files == m.files.(live := t.files.live)
    requires ReadRecords(crc, t.files.live) == ReadRecords(crc, m.files.live) + [e]
    ensures Sound(crc, t, history + [e])
  {
    AppendOwn(View(crc, m), history, View(crc, t), e);
  }

  /** The number of records that fit wholly in k bytes. */
  ghost function Fitting(crc: Checksum, es: seq<Entry>, k: nat): (n: nat)
    ensures FitsWholly(crc, es, k, n)
  {
    SomeFit(crc, es, k);
    var n: nat :| FitsWholly(crc, es, k, n);
    n
  }

  lemma SomeFit(crc: Checksum, es: seq<Entry>, k: nat)
    ensures exists n: nat :: FitsWholly(crc, es, k, n)
  {
    var n := FitsExists(crc, es, k);
  }

  /** The files when the node dies with k bytes of a message's new records written. */
  function FilesAfter(crc: Checksum, m: Machine, a: AppendArgs, k: nat): Files {
    var n := Acknowledge(m.node, a);
    var t := Truncate(crc, n, m.files.live, a.entries);
    var written := EncodeAll(crc, Rest(n, a.entries));
    if t.None? || k > |written| then m.files else m.files.(live := t.value + written[..k])
  }

  /** A crash after any number of bytes of the new records: what is recovered ends with the last record that
      fits wholly. */
  lemma CrashAtAnyByte(crc: Checksum, m: Machine, history: seq<Entry>, a: AppendArgs, k: nat)
    requires Sound(crc, m, history) && WellFormed(a) && AllInRange(a.entries) && Stores(View(crc, m), a)
    requires SafeConflict(Acknowledge(m.node, a), a) && Appendable(crc, m, a)
    requires k <= |EncodeAll(crc, Rest(Acknowledge(m.node, a), a.entries))|
    ensures var j := Fitting(crc, Rest(Acknowledge(m.node, a), a.entries), k);
      Sound(crc, Restarted(crc, m, FilesAfter(crc, m, a, k)), KeptAfter(View(crc, m), history, a, j))
  {
    var j := Fitting(crc, Rest(Acknowledge(m.node, a), a.entries), k);
    CrashWhileAppending(View(crc, m), history, a, j);
    FilesAfterRead(crc, m, a, k, j);
    RebuiltIsSound(crc, m, FilesAfter(crc, m, a, k), KeptAfter(View(crc, m), history, a, j));
  }

  lemma FilesAfterRead(crc: Checksum, m: Machine, a: AppendArgs, k: nat, j: nat)
    requires AllInRange(a.entries) && Stores(View(crc, m), a) && Appendable(crc, m, a)
    requires Truncated(Acknowledge(m.node, a), ReadRecords(crc, m.files.live), a.entries).Some?
    requires var rest := Rest(Acknowledge(m.node, a), a.entries);
      k <= |EncodeAll(crc, rest)| && FitsWholly(crc, rest, k, j)
    ensures var files := FilesAfter(crc, m, a, k);
      && Disk(ReadRecords(crc, files.live), files.snapshot) == DiskAfter(View(crc, m), a, j)
      && files.temp == m.files.temp
  {
    var n := Acknowledge(m.node, a);
    TruncateReads(crc, n, m.files.live, a.entries);
    RestInRange(n, a.entries);
    ReadTorn(crc, Truncate(crc, n, m.files.live, a.entries).value, Rest(n, a.entries), k, j);
  }

  lemma RebuiltIsSound(crc: Checksum, m: Machine, files: Files, history: seq<Entry>)
    requires Rebuilds(m.node.id, m.node.peers, Disk(ReadRecords(crc, files.live), files.snapshot), history)
    requires LeftoverOk(crc, LeftIn(files.temp), m.node.applied) && m.node.applied <= |history|
    ensures Sound(crc, Restarted(crc, m, files), history)
  {
    LeftoverGrows(crc, LeftIn(files.temp), m.node.applied, |history|);
  }

  lemma ReadTorn(crc: Checksum, live: Bytes, rest: seq<Entry>, k: nat, j: nat)
    requires (rest != [] ==> Whole(crc, live)) && AllInRange(rest) && k <= |EncodeAll(crc, rest)|
    requires FitsWholly(crc, rest, k, j)
    ensures ReadRecords(crc, live + EncodeAll(crc, rest)[..k]) == ReadRecords(crc, live) + rest[..j]
  {
    if rest == [] {
      assert live + EncodeAll(crc, rest)[..k] == live && ReadRecords(crc, live) + rest[..j] == ReadRecords(crc, live);
    } else {
      SurvivesByteCut(crc, rest, k, j);
      ReadIsPrefix(crc, live);
      ReadConcat(crc, ReadRecords(crc, live), EncodeAll(crc, rest)[..k]);
    }
  }
}
