/** A life in which a torn leftover loses an entry. A follower dies four bytes into a compaction and is
    restarted; the next message it confirms makes it take another snapshot. */
module LostEntries {
  import opened Common
  import opened RaftNode
  import opened WalFormat
  import opened Leftovers
  import opened Memory
  import opened Servers
  import opened Machines
  import opened Lifetimes

  const PEERS: set<nat> := {1, 2, 3}
  const E1: Entry := Entry(1, 1, [])
  const E2: Entry := Entry(1, 2, [])
  const E3: Entry := Entry(1, 3, [])
  const E4: Entry := Entry(1, 4, [])
  const E5: Entry := Entry(1, 5, [])
  const E6: Entry := Entry(1, 6, [])
  const FOUR: seq<Entry> := [E1, E2, E3, E4]
  const SIX: seq<Entry> := [E1, E2, E3, E4, E5, E6]

  /** Four entries, three of them committed; then two more, five of all committed. */
  const EARLY: AppendArgs := AppendArgs(1, 2, 0, 0, FOUR, 3)
  const LATER: AppendArgs := AppendArgs(1, 2, 4, 1, [E5, E6], 5)

  ghost function Newborn(): Machine {
    Machine(FreshNode(1, PEERS), Files([], None, None))
  }

  /** The follower dies with four bytes of the compacted WAL written. */
  ghost function Shaken(): Life {
    Then(Born(1, PEERS), DiesFollowing(EARLY, 6))
  }

  // ---- The first message ----

  /** A node that holds all of the history from its offset on, with three or more entries applied. */
  ghost predicate Fed(m: Machine, offset: nat, applied: nat, log: seq<Entry>) {
    && m.node.offset == offset && m.node.applied == applied && m.node.log == log
    && m.node.id == 1 && m.node.peers == PEERS && m.node.lastSnapshot == 0
  }

  /** A message whose entries begin right behind the log is appended whole. */
  lemma AllNew(n: Node, entries: seq<Entry>)
    requires entries != [] && !n.Has(entries[0].index)
    ensures ScanFrom(n, entries, 0) == Scan(0, false) && Cut(n, entries) == n && Rest(n, entries) == entries
  {
    assert entries[0..] == entries;
  }

  lemma FirstIsSafe(crc: Checksum)
    ensures Safe(Newborn().node, EARLY) && Appendable(crc, Newborn(), EARLY)
  {
    assert ParseRecord(crc, []) == None;
    AllNew(Acknowledge(Newborn().node, EARLY), FOUR);
  }

  lemma StoresAll(crc: Checksum, m: Machine, a: AppendArgs)
    requires a.term >= m.node.term && !PrevMismatch(Acknowledge(m.node, a), a) && a.entries != []
    requires var n := Acknowledge(m.node, a);
      !n.Has(a.entries[0].index) && a.entries[0].index == n.offset + |n.log| + 1
    ensures var n := Acknowledge(m.node, a);
      var files := m.files.(live := m.files.live + EncodeAll(crc, a.entries));
      Store(crc, m, a) == (Machine(Accepted(n, a), files), AppendReply(n.term, true, 0))
    ensures Merged(Acknowledge(m.node, a), a) ==
      FollowCommit(Acknowledge(m.node, a).(log := m.node.log + a.entries), a.leaderCommit)
  {
    AllNew(Acknowledge(m.node, a), a.entries);
  }

  /** What such a message leaves when its commit index lies in the new entries. */
  lemma StoresAndApplies(crc: Checksum, m: Machine, a: AppendArgs, log: seq<Entry>)
    requires a.term >= m.node.term && !PrevMismatch(Acknowledge(m.node, a), a) && a.entries != []
    requires var n := Acknowledge(m.node, a);
      !n.Has(a.entries[0].index) && a.entries[0].index == n.offset + |n.log| + 1
    requires log == m.node.log + a.entries && log != []
    requires m.node.commit <= m.node.applied < a.leaderCommit < log[|log| - 1].index
    ensures var (t, r) := Store(crc, m, a);
      && r.success && t.files == m.files.(live := m.files.live + EncodeAll(crc, a.entries))
      && t.node.log == log && t.node.applied == a.leaderCommit && t.node.offset == m.node.offset
      && t.node.id == m.node.id && t.node.peers == m.node.peers && t.node.lastSnapshot == m.node.lastSnapshot
  {
    StoresAll(crc, m, a);
    CatchUpFrame(Merged(Acknowledge(m.node, a), a));
  }

  lemma FirstStore(crc: Checksum)
    ensures var (t, r) := Store(crc, Newborn(), EARLY);
      r.success && Fed(t, 0, 3, FOUR) && t.files == Files(EncodeAll(crc, FOUR), None, None)
  {
    assert [] + FOUR == FOUR && [] + EncodeAll(crc, FOUR) == EncodeAll(crc, FOUR);
    StoresAndApplies(crc, Newborn(), EARLY, FOUR);
  }

  ghost function Fallen(crc: Checksum): Machine {
    Store(crc, Newborn(), EARLY).0
  }

  lemma WholeHistory(crc: Checksum, m: Machine, history: seq<Entry>)
    requires Sound(crc, m, history) && m.node.offset == 0
    ensures history == m.node.log
  {
  }

  lemma SnapshotIsDue(m: Machine)
    requires Fed(m, 0, 3, FOUR)
    ensures DueSnapshot(m.node).Some? && DueSnapshot(m.node).value.index == 3
  {
  }

  lemma FallenIsSound(crc: Checksum)
    ensures Sound(crc, Fallen(crc), FOUR)
  {
    FirstStore(crc);
    FirstIsSafe(crc);
    BirthIsSound(crc, 1, PEERS);
    StoreKeepsSound(crc, Newborn(), [], EARLY);
    WholeHistory(crc, Fallen(crc), NewHistory(View(crc, Newborn()), [], EARLY));
  }

  lemma NothingToClear(crc: Checksum, survivors: seq<Entry>)
    ensures Clear(crc, [], survivors)
  {
    assert ParseRecord(crc, []) == None;
    assert TornPart(crc, []) + EncodeAll(crc, survivors) == EncodeAll(crc, survivors);
  }

  lemma ShakenIsPossible(crc: Checksum)
    ensures Possible(crc, Shaken())
    ensures 6 < |CrashPoints(crc, Fallen(crc))|
    ensures Now(crc, Shaken()).machine == Restarted(crc, Fallen(crc), CrashPoints(crc, Fallen(crc))[6])
  {
    FirstStore(crc);
    FirstIsSafe(crc);
    FallenIsSound(crc);
    SnapshotIsDue(Fallen(crc));
    NothingToClear(crc, Surviving(crc, Fallen(crc)));
    TornLeftoverArises(crc, Fallen(crc), FOUR);
    assert Now(crc, Born(1, PEERS)) == Moment(Newborn(), []);
  }

  lemma RestartFinds(crc: Checksum, b: Machine, files: Files)
    requires Sound(crc, b, FOUR) && Fed(b, 0, 3, FOUR)
    requires files.live == b.files.live && files.snapshot == DueSnapshot(b.node)
    ensures var m := Restarted(crc, b, files);
      Fed(m, 3, 4, [E4]) && m.node.term == 0 && m.node.commit == 3
  {
    SnapshotIsDue(b);
    SavedBeforeCompaction(View(crc, b), FOUR);
    RecoveredNode(1, PEERS, Disk(ReadRecords(crc, files.live), files.snapshot), 3, FOUR);
    assert FOUR[3..] == [E4];
  }

  lemma FallenFiles(crc: Checksum)
    requires 6 < |CrashPoints(crc, Fallen(crc))|
    ensures CrashPoints(crc, Fallen(crc))[6] ==
            Files(EncodeAll(crc, FOUR), Some(Record(crc, E4)[..4]), DueSnapshot(Fallen(crc).node))
  {
    FirstStore(crc);
    FallenIsSound(crc);
    SnapshotIsDue(Fallen(crc));
    TornLeftoverArises(crc, Fallen(crc), FOUR);
    CrashPointIs(crc, Fallen(crc), 6);
  }

  /** What the restart finds. */
  lemma AfterTheFall(crc: Checksum)
    ensures var m := Now(crc, Shaken()).machine;
      && Fed(m, 3, 4, [E4]) && m.node.term == 0 && m.node.commit == 3
      && m.files.live == EncodeAll(crc, FOUR) && m.files.temp == Some(Record(crc, E4)[..4])
  {
    ShakenIsPossible(crc);
    FallenFiles(crc);
    FirstStore(crc);
    FallenIsSound(crc);
    RestartFinds(crc, Fallen(crc), CrashPoints(crc, Fallen(crc))[6]);
  }

  // ---- The second message ----

  lemma SecondIsSafe(crc: Checksum, m: Machine)
    requires Fed(m, 3, 4, [E4]) && m.node.term == 0 && m.files.live == EncodeAll(crc, FOUR)
    ensures Safe(m.node, LATER) && Appendable(crc, m, LATER)
  {
    ReadBack(crc, FOUR);
    AllNew(Acknowledge(m.node, LATER), LATER.entries);
  }

  lemma SecondStore(crc: Checksum, m: Machine)
    requires Fed(m, 3, 4, [E4]) && m.node.term == 0 && m.node.commit == 3
    ensures var (t, r) := Store(crc, m, LATER);
      r.success && Fed(t, 3, 5, [E4, E5, E6]) && t.files.temp == m.files.temp
  {
    assert [E4] + [E5, E6] == [E4, E5, E6];
    StoresAndApplies(crc, m, LATER, [E4, E5, E6]);
  }

  lemma SixEntries(crc: Checksum, b: Machine, history: seq<Entry>)
    requires Sound(crc, b, history) && Fed(b, 3, 5, [E4, E5, E6])
    ensures |history| == 6 && history[5..] == [E6] && history[5] == E6 && DueSnapshot(b.node).Some?
  {
    LogContiguous(b.node, history);
    assert history[5] == history[3..][2];
  }

  /** A restart after the snapshot does not find the last entry. */
  lemma SnapshotLoses(crc: Checksum, b: Machine, history: seq<Entry>)
    requires Sound(crc, b, history) && Fed(b, 3, 5, [E4, E5, E6]) && b.files.temp == Some(Record(crc, E4)[..4])
    ensures var t := MaybeSnapshot(crc, b);
      var found := Restarted(crc, t, t.files).node.log;
      && DueSnapshot(b.node).Some? && t.node.log == [E6]
      && found != [E6] && (found == [] || found[0].index == TWO_TO_THE_32)
  {
    SixEntries(crc, b, history);
    TornLeftoverLosesLog(crc, b, history, E4);
    TornLeftoverMisleads(crc, b, history, E4);
  }

  /** The life is possible, the second message is acceptable and confirmed, and after it a restart does not
      find the last entry, which the node had acknowledged: it finds an empty log, or one that begins with an
      entry that never existed. This is so for every checksum function. */
  lemma LifeLosesEntry(crc: Checksum)
    ensures Possible(crc, Shaken())
    ensures var m := Now(crc, Shaken()).machine;
      var (t, r) := ServeAppend(crc, m, LATER);
      var found := Restarted(crc, t, t.files).node.log;
      && Safe(m.node, LATER) && Appendable(crc, m, LATER) && r.success && t.node.log == [E6]
      && found != [E6] && (found == [] || found[0].index == TWO_TO_THE_32)
  {
    ShakenIsPossible(crc);
    AfterTheFall(crc);
    LifeIsSound(crc, Shaken());
    LaterLoses(crc, Now(crc, Shaken()).machine, Now(crc, Shaken()).history);
  }

  lemma LaterLoses(crc: Checksum, m: Machine, history: seq<Entry>)
    requires Sound(crc, m, history)
    requires Fed(m, 3, 4, [E4]) && m.node.term == 0 && m.node.commit == 3 && m.files.live == EncodeAll(crc, FOUR)
    requires m.files.temp == Some(Record(crc, E4)[..4])
    ensures var (t, r) := ServeAppend(crc, m, LATER);
      var found := Restarted(crc, t, t.files).node.log;
      && Safe(m.node, LATER) && Appendable(crc, m, LATER) && r.success && t.node.log == [E6]
      && found != [E6] && (found == [] || found[0].index == TWO_TO_THE_32)
  {
    SecondStore(crc, m);
    SecondIsSafe(crc, m);
    StoreKeepsSound(crc, m, history, LATER);
    SnapshotLoses(crc, Store(crc, m, LATER).0, NewHistory(View(crc, m), history, LATER));
  }

  /** So the second message is the one event of the two that the theorem about lives does not permit. */
  lemma LaterIsNotPermitted(crc: Checksum)
    ensures !Permitted(crc, Now(crc, Shaken()).machine, Now(crc, Shaken()).history, EntriesArrived(LATER))
  {
    ShakenIsPossible(crc);
    LifeLosesEntry(crc);
    LifeIsSound(crc, Shaken());
    if Permitted(crc, Now(crc, Shaken()).machine, Now(crc, Shaken()).history, EntriesArrived(LATER)) {
      LifeIsRecoverable(crc, Then(Shaken(), EntriesArrived(LATER)));
    }
  }
}
