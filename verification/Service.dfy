/** What the handlers of a node with its disk answer and change, said in terms of log, offset and records. */
module Services {
  import opened Common
  import opened StateMachines
  import opened RaftNode
  import opened Handlers
  import opened WalFormat
  import opened Leftovers
  import opened SnapshotCodec
  import opened Memory
  import opened Servers
  import opened Machines

  // ---- AppendEntries ----

  /** The first entry of the message that is new conflicts with one in the log, and the WAL has no record
      before it to truncate after. */
  ghost predicate Uncuttable(crc: Checksum, m: Machine, a: AppendArgs) {
    exists k: nat ::
      FirstNew(m.node, a, k) && Differs(m.node, a, k) && Missing(ReadRecords(crc, m.files.live), a.prevIndex + k)
  }

  lemma CutsUnless(crc: Checksum, m: Machine, n: Node, a: AppendArgs)
    requires n.log == m.node.log && n.offset == m.node.offset && WellFormed(a) && !Detached(n, a)
    ensures ScanFrom(n, a.entries, 0).conflict && Truncate(crc, n, m.files.live, a.entries) == None
            <==> Uncuttable(crc, m, a)
  {
    ScanFinds(n, a);
    var s := ScanFrom(n, a.entries, 0);
    if s.conflict {
      ConflictIsFirstNew(n, m.node, a);
      TruncateListMeaning(ReadRecords(crc, m.files.live), a.prevIndex + s.from);
    }
    forall k: nat | FirstNew(m.node, a, k) && Differs(m.node, a, k) ensures s.conflict && k == s.from {
      FirstNewIsScan(m.node, n, a, k);
      assert Differs(n, a, k);
    }
  }

  lemma ConflictIsFirstNew(n: Node, n0: Node, a: AppendArgs)
    requires n.log == n0.log && n.offset == n0.offset && WellFormed(a) && !Detached(n, a)
    requires ScanFrom(n, a.entries, 0).conflict
    ensures var k := ScanFrom(n, a.entries, 0).from;
      FirstNew(n0, a, k) && Differs(n0, a, k) && a.entries[k].index == a.prevIndex + 1 + k
  {
    ScanFinds(n, a);
    var k := ScanFrom(n, a.entries, 0).from;
    assert Differs(n, a, k) && !Repeats(n0, a, k);
    forall i: nat | i < k ensures Repeats(n0, a, i) { assert Repeats(n, a, i); }
  }

  /** The answer of a node with its disk, snapshot included: a message that is not old is accepted if and only
      if it neither contradicts the log nor is detached from it, and a conflict leaves a record to truncate
      after. A message refused for what it is leaves the log and every file alone. */
  lemma AppendServed(crc: Checksum, m: Machine, a: AppendArgs)
    requires WellFormed(a)
    ensures var (t, r) := ServeAppend(crc, m, a);
      var n := m.node;
      if a.term < n.term then t == m && r == AppendReply(n.term, false, 0)
      else
        && r.term == a.term
        && (r.success <==> !Contradicts(n, a) && !Detached(n, a) && !Uncuttable(crc, m, a))
        && r.conflictIndex == (if !Contradicts(n, a) && Detached(n, a) then n.offset + |n.log| + 1 else 0)
        && t.node.term == a.term && t.node.role == Follower && t.node.leaderId == a.leader
        && t.node.votedFor == (if a.term > n.term then None else n.votedFor)
        && (Contradicts(n, a) || Detached(n, a) ==> t.node.log == n.log && t.files == m.files)
  {
    if a.term >= m.node.term {
      var n := Acknowledge(m.node, a);
      var found := Truncate(crc, n, m.files.live, a.entries).Some?;
      AppendAnswer(m.node, a, found, true);
      AppendFields(m.node, a, found, true);
      GapMeaning(n, a);
      if !Detached(m.node, a) {
        CutsUnless(crc, m, n, a);
        ScanFinds(n, a);
        SameConflicts(m.node, n, a);
      } else {
        RefusedBytes(crc, m, n, a);
      }
      SnapshotFields(crc, Store(crc, m, a).0);
    }
  }

  /** The WAL holds, behind everything that was there - or, after a conflict, behind the first record of the
      index before it - the records of the message from entry k on. */
  ghost predicate StoredFrom(crc: Checksum, m: Machine, a: AppendArgs, k: nat, live: Bytes)
    requires k <= |a.entries|
  {
    if Differs(m.node, a, k) then
      var kept := TruncateList(ReadRecords(crc, m.files.live), a.prevIndex + k);
      kept.Some? && live == EncodeAll(crc, kept.value) + EncodeAll(crc, a.entries[k..])
    else live == m.files.live + EncodeAll(crc, a.entries[k..])
  }

  /** An accepted message changes no file but the WAL, and that not at all if it brings nothing new; otherwise
      its records are stored from the first new entry on. */
  lemma AppendStored(crc: Checksum, m: Machine, a: AppendArgs)
    requires WellFormed(a) && a.term >= m.node.term && Store(crc, m, a).1.success
    ensures var files := Store(crc, m, a).0.files;
      && files == m.files.(live := files.live)
      && (!Writes(m.node, a) ==> files.live == m.files.live)
      && forall k: nat :: FirstNew(m.node, a, k) ==> StoredFrom(crc, m, a, k, files.live)
  {
    var n := Acknowledge(m.node, a);
    StoredFiles(crc, m, n, a);
    ScanFinds(n, a);
    SameConflicts(m.node, n, a);
    if !Writes(m.node, a) { assert m.files.live + [] == m.files.live; }
    forall k: nat | FirstNew(m.node, a, k) ensures StoredFrom(crc, m, a, k, Store(crc, m, a).0.files.live) {
      StoredAt(crc, m, n, a, k);
    }
  }

  lemma StoredAt(crc: Checksum, m: Machine, n: Node, a: AppendArgs, k: nat)
    requires n.log == m.node.log && n.offset == m.node.offset && WellFormed(a) && !Detached(n, a)
    requires FirstNew(m.node, a, k) && Truncate(crc, n, m.files.live, a.entries).Some?
    ensures StoredFrom(crc, m, a, k,
                       Truncate(crc, n, m.files.live, a.entries).value + EncodeAll(crc, Rest(n, a.entries)))
  {
    FirstNewIsScan(m.node, n, a, k);
    ScanFinds(n, a);
    assert ScanFrom(n, a.entries, 0).conflict ==> Differs(n, a, k);
    assert Differs(m.node, a, k) ==> Differs(n, a, k) && Conflicts(n, a);
  }

  lemma StoredFiles(crc: Checksum, m: Machine, n: Node, a: AppendArgs)
    requires n == Acknowledge(m.node, a) && WellFormed(a) && a.term >= m.node.term && Store(crc, m, a).1.success
    ensures !Detached(n, a) && Truncate(crc, n, m.files.live, a.entries).Some?
    ensures Store(crc, m, a).0.files ==
            m.files.(live := Truncate(crc, n, m.files.live, a.entries).value + EncodeAll(crc, Rest(n, a.entries)))
  {
    GapMeaning(n, a);
  }

  /** A detached message has no conflict, so nothing is truncated. */
  lemma RefusedBytes(crc: Checksum, m: Machine, n: Node, a: AppendArgs)
    requires n == Acknowledge(m.node, a) && WellFormed(a) && Detached(m.node, a) && a.term >= m.node.term
    ensures Store(crc, m, a).0.files == m.files
  {
    GapMeaning(n, a);
  }

  // ---- Snapshots ----

  /** A snapshot is taken when lastApplied is three or more ahead of the last one, or behind it, and its entry
      is in memory: it holds the map, that index and that entry's term; the log then begins behind it, and the
      WAL is what was left over in the temporary file and the records above it. Nothing else changes. */
  lemma SnapshotMeaning(crc: Checksum, m: Machine)
    ensures var t, n := MaybeSnapshot(crc, m), m.node;
      if (n.applied < n.lastSnapshot || n.applied >= n.lastSnapshot + 3) && Held(n, n.applied) then
        && t.node == n.(log := n.log[n.applied - n.offset..], offset := n.applied, lastSnapshot := n.applied)
        && t.files.snapshot == Some(Snapshot(n.applied, TermAt(n, n.applied), n.kv)) && t.files.temp == None
        && t.files.live ==
           LeftIn(m.files.temp) + EncodeAll(crc, Survivors(ReadRecords(crc, m.files.live), n.applied))
      else t == m
  {
  }

  /** Cutting the log behind an index drops exactly the entries up to it, for an index behind the offset that
      is applied and in memory; for any other it does nothing. */
  lemma CompactionMeaning(n: Node, index: nat)
    ensures CompactLog(n, index) ==
            if Held(n, index) && index <= n.applied then n.(log := n.log[index - n.offset..], offset := index) else n
  {
  }

  lemma SnapshotFields(crc: Checksum, m: Machine)
    ensures var n, n' := m.node, MaybeSnapshot(crc, m).node;
      n' == n.(log := n'.log, offset := n'.offset, lastSnapshot := n'.lastSnapshot)
  {
    SnapshotMeaning(crc, m);
  }

  /** A node that has applied its whole log when it takes a snapshot has an empty log behind it. */
  lemma SnapshotOfAll(crc: Checksum, m: Machine)
    requires DueSnapshot(m.node).Some? && m.node.applied == m.node.offset + |m.node.log|
    ensures var n := MaybeSnapshot(crc, m).node; n.log == [] && n.offset == m.node.applied > 0
  {
    SnapshotMeaning(crc, m);
  }

  /** An installed snapshot of a term that is not old makes the node a follower of that term, without a vote if
      the term is newer. If it decodes, it is the whole state from then on; if not, nothing else changes. The
      WAL stays as it is in either case. */
  lemma InstallMeaning(m: Machine, term: nat, payload: Option<Snapshot>)
    ensures var t, n := Install(m, term, payload), m.node;
      if term < n.term then t == m
      else
        var vote := if term > n.term then None else n.votedFor;
        && t.files == m.files.(snapshot := if payload == None then m.files.snapshot else payload)
        && t.node == match payload
                     case None => n.(term := term, role := Follower, votedFor := vote)
                     case Some(x) =>
                       n.(term := term, role := Follower, votedFor := vote, log := [], kv := x.data,
                          offset := x.index, commit := x.index, applied := x.index)
  {
  }

  // ---- Leaders ----

  /** A reply of a newer term deposes the leader, whatever it brings and whatever snapshot is taken. */
  lemma ReplyServed(crc: Checksum, m: Machine, p: nat, sent: AppendArgs, r: AppendReply)
    ensures var n, n' := m.node, ServeReply(crc, m, p, sent, r).node;
      && (if r.term > sent.term then n'.term == r.term && n'.role == Follower && n'.votedFor == None
          else n'.term == n.term && n'.role == n.role && n'.votedFor == n.votedFor)
      && n'.next == RecordReply(n, p, sent, r).next && n'.matched == RecordReply(n, p, sent, r).matched
  {
    var m' := RecordReply(m.node, p, sent, r);
    ReplyTerm(m.node, p, sent, r);
    SnapshotFields(crc, m.(node := TryAdvance(m')));
  }

  /** A command goes to the end of log and WAL with the next index and the leader's term. */
  lemma ProposalMeaning(crc: Checksum, m: Machine, data: Bytes)
    requires Contiguous(m.node.log, m.node.offset)
    ensures var t, n := ServePropose(crc, m, data), m.node;
      var e := Entry(n.term, n.offset + |n.log| + 1, data);
      t == Machine(n.(log := n.log + [e]), m.files.(live := m.files.live + Record(crc, e)))
  {
  }

  /** The vote that makes a leader puts the no-op on disk; no other reply touches a file. */
  lemma VoteServed(crc: Checksum, m: Machine, r: VoteReply)
    requires Contiguous(m.node.log, m.node.offset)
    ensures var t, n := ServeVote(crc, m, r), m.node;
      t.files == if r.term <= n.term && r.granted && n.role == Candidate && 2 * (n.votes + 1) > |n.peers|
                 then m.files.(live := m.files.live + Record(crc, Entry(n.term, n.offset + |n.log| + 1, NO_OP)))
                 else m.files
  {
  }

  // ---- Restarts ----

  lemma {:induction false} ReplayFromAll(n: Node, es: seq<Entry>)
    ensures ReplayFrom(n, es) ==
            n.(applied := if es == [] then n.applied else es[|es| - 1].index, kv := Replay(n.kv, es))
    decreases |es|
  {
    if es != [] {
      var m := n.(applied := es[0].index, kv := ApplyCommand(n.kv, es[0].data));
      ReplayFromAll(m, es[1..]);
      ReplayConcat(n.kv, [es[0]], es[1..]);
      ReplayOne(n.kv, es[0]);
      assert [es[0]] + es[1..] == es;
    }
  }

  /** A restart forgets term, vote and office, and knows as committed only what the snapshot covers. Its log is
      the records above that, in the order of the file and whatever their indices, and all of them are applied
      to the map of the snapshot. */
  lemma RestartForgets(crc: Checksum, m: Machine, files: Files)
    ensures var n := Restarted(crc, m, files).node;
      var covered := if files.snapshot == None then 0 else files.snapshot.value.index;
      && n.id == m.node.id && n.peers == m.node.peers
      && n.term == 0 && n.votedFor == None && n.role == Follower && n.votes == 0
      && n.next == map[] && n.matched == map[] && n.leaderId == 0 && n.lastSnapshot == 0
      && n.commit == n.offset == covered
      && n.log == Survivors(ReadRecords(crc, files.live), covered)
      && n.applied == (if n.log == [] then covered else n.log[|n.log| - 1].index)
      && n.kv == Replay(if files.snapshot == None then map[] else files.snapshot.value.data, n.log)
  {
    var loaded := Loaded(m.node.id, m.node.peers, files.snapshot);
    var survivors := Survivors(ReadRecords(crc, files.live), loaded.offset);
    ReplayFromAll(loaded.(log := survivors), survivors);
  }

  /** So a node that granted its vote in a term grants the same term's vote once more after a restart, to any
      candidate whose log is up to date: one vote per term holds only while no voter restarts. */
  lemma VotesAgainAfterRestart(crc: Checksum, m: Machine, files: Files, first: VoteArgs, second: VoteArgs)
    requires HandleVote(m.node, first).1.granted && second.term == first.term
    ensures var restarted := Restarted(crc, m.(node := HandleVote(m.node, first).0), files).node;
      HandleVote(restarted, second).1.granted <==> AsUpToDate(second.lastTerm, second.lastIndex, restarted)
  {
    RestartForgets(crc, m.(node := HandleVote(m.node, first).0), files);
    VoteAnswer(Restarted(crc, m.(node := HandleVote(m.node, first).0), files).node, second);
  }
}
