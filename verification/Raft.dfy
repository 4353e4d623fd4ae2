/** The node as it runs: fields updated in place, with the WAL, the snapshot file and the state machine
    beside it. Every method is proved, for any contents of the files, against the functions of RaftNode and
    Machines. */
module Rafts {
  import opened Common
  import opened StateMachines
  import opened Quorums
  import opened RaftNode
  import opened WalFormat
  import opened Leftovers
  import opened Wals
  import opened Memory
  import opened Servers
  import opened Machines
  import S = SnapshotCodec

  /** What the leader sends in one tick: None when building one of the messages panics. */
  type Messages = Option<map<nat, AppendArgs>>

  ghost predicate Panics(n: Node, p: nat) {
    PeerMessage(n, p) == None
  }

  /** What an acceptable message does to memory and WAL, for a node that has taken over its term. */
  function AcceptAll(crc: Checksum, m: Machine, a: AppendArgs): (Machine, AppendReply) {
    var t := Truncate(crc, m.node, m.files.live, a.entries);
    var cut, rest := Cut(m.node, a.entries), Rest(m.node, a.entries);
    if t == None then (m.(node := cut), AppendReply(m.node.term, false, 0))
    else if Gap(m.node, a) then
      (Machine(cut, m.files.(live := t.value)), AppendReply(m.node.term, false, cut.offset + |cut.log| + 1))
    else
      (Machine(Accepted(m.node, a), m.files.(live := t.value + EncodeAll(crc, rest))),
       AppendReply(m.node.term, true, 0))
  }

  lemma StoreIsAccept(crc: Checksum, m: Machine, a: AppendArgs)
    requires a.term >= m.node.term && !PrevMismatch(Acknowledge(m.node, a), a)
    ensures Store(crc, m, a) == AcceptAll(crc, m.(node := Acknowledge(m.node, a)), a)
  {
  }

  /** m is `was` with every one of the keys set to the value. */
  ghost predicate Filled(m: map<nat, nat>, was: map<nat, nat>, keys: set<nat>, value: nat) {
    m.Keys == was.Keys + keys && forall p :: p in m ==> m[p] == if p in keys then value else was[p]
  }

  lemma FilledIsUnion(m: map<nat, nat>, was: map<nat, nat>, keys: set<nat>, value: nat)
    requires Filled(m, was, keys, value)
    ensures m == was + map p | p in keys :: value
  {
  }

  /** What becomeLeader does but for the WAL. */
  lemma LeaderFields(n: Node, n': Node)
    requires n' == n.(role := Leader, next := n'.next, matched := n'.matched, log := n.log + [NoOp(n)])
    requires Filled(n'.next, n.next, n.peers, n.LastIndex() + 1) && Filled(n'.matched, n.matched, n.peers, 0)
    ensures n' == BecomeLeader(n)
  {
    FilledIsUnion(n'.next, n.next, n.peers, n.LastIndex() + 1);
    FilledIsUnion(n'.matched, n.matched, n.peers, 0);
  }

  lemma VoteCases(crc: Checksum, m: Machine, r: VoteReply)
    ensures r.term > m.node.term ==> ServeVote(crc, m, r) == m.(node := StepDown(m.node, r.term))
    ensures r.term <= m.node.term && !r.granted ==> ServeVote(crc, m, r) == m
    ensures r.term <= m.node.term && r.granted && !Wins(m.node, r) ==>
            ServeVote(crc, m, r) == m.(node := m.node.(votes := m.node.votes + 1))
    ensures Wins(m.node, r) ==> ServeVote(crc, m, r) == ServeLead(crc, m.(node := m.node.(votes := m.node.votes + 1)))
  {
  }

  class Raft {
    const id: nat
    const peers: set<nat>
    const wal: Wal
    const stateMachine: StateMachine
    var currentTerm: nat
    var votedFor: Option<nat>
    var log: seq<Entry>
    var logOffset: nat
    var commitIndex: nat
    var lastApplied: nat
    var nextIndex: map<nat, nat>
    var matchIndex: map<nat, nat>
    var state: Role
    /** The tally of the running election. */
    var votes: nat
    var leaderID: nat
    var lastSnapshotIndex: nat
    var snapshotFile: Option<Bytes>
    /** The snapshot written to the file. */
    ghost var saved: Option<S.Snapshot>

    ghost function Node(): Node
      reads this, stateMachine
    {
      RaftNode.Node(id, peers, currentTerm, votedFor, log, logOffset, commitIndex, lastApplied, stateMachine.data,
                    state, nextIndex, matchIndex, votes, leaderID, lastSnapshotIndex)
    }

    ghost function State(): Machine
      reads this, stateMachine, wal
    {
      Machine(Node(), Files(wal.file, wal.temp, saved))
    }

    /** The snapshot file decodes to what was saved, if that fits the format. */
    ghost predicate Valid()
      reads this
    {
      match saved
      case None => snapshotFile == None
      case Some(x) => snapshotFile.Some? && (S.Fits(x) ==> S.DecodeBytes(snapshotFile.value) == saved)
    }

    constructor (id: nat, peers: set<nat>, wal: Wal, stateMachine: StateMachine, snapshotFile: Option<Bytes>)
      ensures this.wal == wal && this.stateMachine == stateMachine
      ensures this.snapshotFile == snapshotFile && saved == None
      ensures Node() == FreshNode(id, peers).(kv := stateMachine.data)
    {
      this.id, this.peers, this.wal, this.stateMachine, this.snapshotFile := id, peers, wal, stateMachine, snapshotFile;
      currentTerm, votedFor, log, logOffset, commitIndex, lastApplied := 0, None, [], 0, 0, 0;
      nextIndex, matchIndex, state, votes, leaderID, lastSnapshotIndex := map[], map[], Follower, 0, 0, 0;
      saved := None;
    }

    // ---- Reading the log ----

    method EntryAt(index: nat) returns (e: Option<Entry>)
      ensures e == Node().EntryAt(index)
    {
      var pos := index - logOffset - 1;
      e := if pos < 0 || pos >= |log| then None else Some(log[pos]);
    }

    method LastLogIndexAndTerm() returns (index: nat, term: nat)
      ensures index == Node().LastIndex() && term == Node().LastTerm()
    {
      if log == [] {
        return logOffset, 0;
      }
      index, term := log[|log| - 1].index, log[|log| - 1].term;
    }

    // ---- Elections ----

    method HandleRequestVote(a: VoteArgs) returns (r: VoteReply)
      modifies this
      ensures (Node(), r) == HandleVote(old(Node()), a)
      ensures State() == old(State()).(node := Node()) && (old(Valid()) ==> Valid())
    {
      if a.term < currentTerm {
        return VoteReply(currentTerm, false);
      }
      if a.term > currentTerm {
        currentTerm, votedFor, state := a.term, None, Follower;
      }
      var voteOk := votedFor == None || votedFor == Some(a.candidate);
      var userIndex, userTerm := LastLogIndexAndTerm();
      var logOk := a.lastTerm > userTerm || (a.lastTerm == userTerm && a.lastIndex >= userIndex);
      if voteOk && logOk {
        votedFor := Some(a.candidate);
        r := VoteReply(currentTerm, true);
      } else {
        r := VoteReply(currentTerm, false);
      }
    }

    /** becomeCandidate: the result is what requestVotes sends to every other peer. */
    method StartElection() returns (request: VoteArgs)
      modifies this
      ensures Node() == BecomeCandidate(old(Node())) && request == VoteRequest(Node())
      ensures State() == old(State()).(node := Node()) && (old(Valid()) ==> Valid())
    {
      currentTerm := currentTerm + 1;
      state := Candidate;
      votedFor := Some(id);
      var lastIndex, lastTerm := 0, 0;
      if log != [] {
        lastIndex, lastTerm := log[|log| - 1].index, log[|log| - 1].term;
      }
      votes := 1;
      request := VoteArgs(currentTerm, id, lastIndex, lastTerm);
    }

    /** The goroutine of requestVotes on a reply. */
    method CountVote(r: VoteReply)
      requires Valid()
      modifies this, wal
      ensures Valid()
      ensures State() == ServeVote(wal.crc, old(State()), r)
    {
      VoteCases(wal.crc, State(), r);
      if r.term > currentTerm {
        currentTerm, state, votedFor := r.term, Follower, None;
        return;
      }
      if r.granted {
        votes := votes + 1;
        if votes >= |peers| / 2 + 1 && state == Candidate {
          Lead();
        }
      }
    }

    /** becomeLeader. */
    method Lead()
      requires Valid()
      modifies this, wal
      ensures Valid() && State() == ServeLead(wal.crc, old(State()))
    {
      var lastIndex, _ := LastLogIndexAndTerm();
      TakeOffice(lastIndex);
      AppendEntry(Entry(currentTerm, lastIndex + 1, NO_OP));
      LeaderFields(old(Node()), Node());
    }

    /** Every peer is expected to need everything behind the leader's old last index. */
    method TakeOffice(lastIndex: nat)
      modifies this`state, this`nextIndex, this`matchIndex
      ensures Node() == old(Node()).(role := Leader, next := nextIndex, matched := matchIndex)
      ensures Filled(nextIndex, old(nextIndex), peers, lastIndex + 1) && Filled(matchIndex, old(matchIndex), peers, 0)
    {
      state := Leader;
      var todo, done := peers, {};
      while todo != {}
        invariant done + todo == peers && done !! todo
        invariant Node() == old(Node()).(role := Leader, next := nextIndex, matched := matchIndex)
        invariant Filled(nextIndex, old(nextIndex), done, lastIndex + 1) && Filled(matchIndex, old(matchIndex), done, 0)
        decreases todo
      {
        var p :| p in todo;
        nextIndex, matchIndex := nextIndex[p := lastIndex + 1], matchIndex[p := 0];
        todo, done := todo - {p}, done + {p};
      }
      assert done == peers;
    }

    /** The new entry goes to the end of the log and of the WAL. */
    method AppendEntry(e: Entry)
      modifies this`log, wal
      ensures Node() == old(Node()).(log := old(log) + [e])
      ensures State().files == old(State()).files.(live := old(wal.file) + Record(wal.crc, e))
    {
      log := log + [e];
      ghost var states := wal.Append(e);
    }

    // ---- Leading ----

    method Propose(data: Bytes) returns (index: Option<nat>)
      requires Valid()
      modifies this, wal
      ensures Valid()
      ensures State() == (if old(state) == Leader then ServePropose(wal.crc, old(State()), data) else old(State()))
      ensures index == if old(state) == Leader then Some(Proposal(old(Node()), data).index) else None
    {
      if state != Leader {
        return None;
      }
      var lastIndex, _ := LastLogIndexAndTerm();
      AppendEntry(Entry(currentTerm, lastIndex + 1, data));
      index := Some(lastIndex + 1);
    }

    /** The data one tick collects for peer p. */
    method MessageFor(p: nat) returns (a: Option<AppendArgs>)
      ensures a == PeerMessage(Node(), p)
    {
      var next := if p in nextIndex then nextIndex[p] else 0;
      var pos := next - logOffset - 1;
      if pos < 0 {
        return Some(AppendArgs(currentTerm, id, 0, 0, [], commitIndex));
      }
      if pos > |log| {
        return None;
      }
      var prevTerm := 0;
      if next - 1 > 0 {
        var e := EntryAt(next - 1);
        if e.Some? { prevTerm := e.value.term; }
      }
      a := Some(AppendArgs(currentTerm, id, next - 1, prevTerm, log[pos..], commitIndex));
    }

    /** A tick of heartBeatLoop: what goes to every other peer. The data is built for the leader itself too,
        so a bad nextIndex of its own panics as well. */
    method Tick() returns (sent: Messages)
      ensures sent == None <==> exists p :: p in peers && Panics(Node(), p)
      ensures sent.Some? ==> sent.value.Keys == peers - {id}
      ensures sent.Some? ==> forall p :: p in sent.value ==> PeerMessage(Node(), p) == Some(sent.value[p])
    {
      var all: map<nat, AppendArgs> := map[];
      var todo := peers;
      while todo != {}
        invariant todo <= peers && all.Keys == peers - todo
        invariant forall p :: p in all ==> !Panics(Node(), p) && PeerMessage(Node(), p) == Some(all[p])
        decreases todo
      {
        var p :| p in todo;
        var a := MessageFor(p);
        if a == None {
          assert Panics(Node(), p);
          return None;
        }
        all := all[p := a.value];
        todo := todo - {p};
      }
      sent := Some(map p | p in all && p != id :: all[p]);
    }

    /** The heartbeat goroutine on a reply. */
    method HandleReply(p: nat, sent: AppendArgs, r: AppendReply)
      requires Valid()
      modifies this, wal, stateMachine
      ensures Valid() && State() == ServeReply(wal.crc, old(State()), p, sent, r)
    {
      NoteReply(p, sent, r);
      if r.success && sent.entries != [] {
        TryAdvanceCommitIndex();
      }
    }

    method NoteReply(p: nat, sent: AppendArgs, r: AppendReply)
      modifies this`currentTerm, this`state, this`votedFor, this`matchIndex, this`nextIndex
      ensures Node() == RecordReply(old(Node()), p, sent, r)
    {
      if r.term > sent.term {
        currentTerm, state, votedFor := r.term, Follower, None;
      }
      if r.success {
        if sent.entries != [] {
          var last := sent.entries[|sent.entries| - 1].index;
          matchIndex := matchIndex[p := last];
          nextIndex := nextIndex[p := last + 1];
        }
      } else if r.conflictIndex > 0 {
        nextIndex := nextIndex[p := r.conflictIndex];
      } else if p in nextIndex && nextIndex[p] > 1 {
        nextIndex := nextIndex[p := nextIndex[p] - 1];
      }
    }

    method TryAdvanceCommitIndex()
      requires Valid()
      modifies this, wal, stateMachine
      ensures Valid() && State() == ServeAdvance(wal.crc, old(State()))
    {
      var last, _ := LastLogIndexAndTerm();
      var pick := PickMajorityIndex(matchIndex, last);
      if pick == 0 {
        return;
      }
      var e := EntryAt(pick);
      if e == None || e.value.term != currentTerm {
        return;
      }
      commitIndex := pick;
      ApplyCommitted();
      TakeSnapshotIfDue();
    }

    /** Both loops that apply newly committed entries. */
    method ApplyCommitted()
      modifies this`lastApplied, stateMachine
      ensures Node() == CatchUp(old(Node()))
    {
      while lastApplied < commitIndex
        invariant Node() == old(Node()).(applied := lastApplied, kv := stateMachine.data)
        invariant CatchUp(Node()) == CatchUp(old(Node()))
        decreases commitIndex - lastApplied
      {
        lastApplied := lastApplied + 1;
        var e := EntryAt(lastApplied);
        if e.Some? {
          stateMachine.Apply(e.value);
        }
      }
    }

    // ---- Following ----

    method HandleAppendEntries(a: AppendArgs) returns (r: AppendReply)
      requires Valid()
      modifies this, wal, stateMachine
      ensures Valid() && (State(), r) == ServeAppend(wal.crc, old(State()), a)
    {
      if a.term < currentTerm {
        return AppendReply(currentTerm, false, 0);
      }
      Heed(a);
      if a.prevIndex > 0 {
        var e := EntryAt(a.prevIndex);
        if e.Some? && e.value.term != a.prevTerm {
          return AppendReply(currentTerm, false, 0);
        }
      }
      r := Accept(a);
      assert (State(), r) == Store(wal.crc, old(State()), a) by { StoreIsAccept(wal.crc, old(State()), a); }
      if r.success {
        TakeSnapshotIfDue();
      }
    }

    /** The term and role changes at the top of the handler. */
    method Heed(a: AppendArgs)
      modifies this`state, this`currentTerm, this`votedFor, this`leaderID
      ensures Node() == Acknowledge(old(Node()), a)
    {
      if state != Follower {
        state := Follower;
      }
      if a.term > currentTerm {
        currentTerm, votedFor := a.term, None;
      }
      leaderID := a.leader;
    }

    /** The handler behind its consistency check, up to the snapshot. */
    method Accept(a: AppendArgs) returns (r: AppendReply)
      modifies this`log, this`commitIndex, this`lastApplied, wal, stateMachine
      ensures (State(), r) == AcceptAll(wal.crc, old(State()), a)
    {
      var from, found := DropConflict(a.entries);
      if !found {
        return AppendReply(currentTerm, false, 0);
      }
      var rest := a.entries[from..];
      if rest != [] {
        var expected := logOffset + |log| + 1;
        if rest[0].index != expected {
          return AppendReply(currentTerm, false, expected);
        }
      }
      StoreAndApply(rest, a.leaderCommit);
      r := AppendReply(currentTerm, true, 0);
    }

    /** The merge loop: skips the entries the log already holds, and cuts log and WAL at the first one it
        holds with another term. */
    method DropConflict(entries: seq<Entry>) returns (from: nat, found: bool)
      modifies this`log, wal
      ensures from == ScanFrom(old(Node()), entries, 0).from && Node() == Cut(old(Node()), entries)
      ensures var t := Truncate(wal.crc, old(Node()), old(wal.file), entries);
        found == t.Some? && State().files == old(State()).files.(live := if found then t.value else old(wal.file))
    {
      from := 0;
      while from < |entries|
        invariant from <= |entries|
        invariant State() == old(State())
        invariant ScanFrom(Node(), entries, from) == ScanFrom(Node(), entries, 0)
      {
        var e := EntryAt(entries[from].index);
        if e == None {
          return from, true;
        }
        if e.value.term != entries[from].term {
          found := CutBefore(entries[from].index);
          return from, found;
        }
        from := from + 1;
      }
      found := true;
    }

    /** Log and WAL lose everything from the index on. */
    method CutBefore(index: nat) returns (found: bool)
      requires logOffset < index <= logOffset + |log|
      modifies this`log, wal
      ensures Node() == old(Node()).(log := old(log)[..index - logOffset - 1])
      ensures wal.temp == old(wal.temp)
      ensures match TruncateList(ReadRecords(wal.crc, old(wal.file)), index - 1)
              case None => !found && wal.file == old(wal.file)
              case Some(t) => found && wal.file == EncodeAll(wal.crc, t)
    {
      log := log[..index - logOffset - 1];
      found := wal.TruncateAfter(index - 1);
    }

    /** The entries are appended to log and WAL, the commit index follows the leader's, and what is newly
        committed is applied. */
    method StoreAndApply(rest: seq<Entry>, leaderCommit: nat)
      modifies this`log, this`commitIndex, this`lastApplied, wal, stateMachine
      ensures Node() == CatchUp(FollowCommit(old(Node()).(log := old(log) + rest), leaderCommit))
      ensures State().files == old(State()).files.(live := old(wal.file) + EncodeAll(wal.crc, rest))
    {
      log := log + rest;
      ghost var states := wal.AppendAll(rest);
      if leaderCommit > commitIndex {
        var last, _ := LastLogIndexAndTerm();
        commitIndex := if leaderCommit < last then leaderCommit else last;
      }
      ApplyCommitted();
    }

    // ---- Snapshots ----

    method CompactLog(index: nat)
      modifies this`log, this`logOffset
      ensures Node() == Servers.CompactLog(old(Node()), index)
    {
      if index <= logOffset || index > lastApplied {
        return;
      }
      var keepFrom := index - logOffset;
      if keepFrom > |log| {
        return;
      }
      log := log[keepFrom..];
      logOffset := index;
    }

    method SaveSnapshot(x: S.Snapshot)
      modifies this`snapshotFile, this`saved
      ensures saved == Some(x) && Valid()
    {
      var bytes := S.Encode(x);
      if S.Fits(x) {
        ghost var ps :| S.Lists(ps, x.data) && bytes == S.EncodeSnapshot(x, ps);
        S.RoundTrip(x, ps, []);
        assert bytes + [] == bytes;
      }
      snapshotFile, saved := Some(bytes), Some(x);
    }

    /** maybeSnapshot. The difference wraps around when lastApplied fell behind. */
    method TakeSnapshotIfDue()
      requires Valid()
      modifies this, wal
      ensures Valid() && State() == MaybeSnapshot(wal.crc, old(State()))
    {
      if lastSnapshotIndex <= lastApplied < lastSnapshotIndex + 3 {
        return;
      }
      var e := EntryAt(lastApplied);
      if e == None {
        return;
      }
      TakeSnapshot(S.Snapshot(lastApplied, e.value.term, stateMachine.data));
    }

    method TakeSnapshot(x: S.Snapshot)
      requires x.index == lastApplied
      modifies this`snapshotFile, this`saved, this`log, this`logOffset, this`lastSnapshotIndex, wal
      ensures Valid() && Node() == Servers.CompactLog(old(Node()), x.index).(lastSnapshot := x.index)
      ensures State().files ==
        Files(LeftIn(old(wal.temp)) + EncodeAll(wal.crc, Survivors(ReadRecords(wal.crc, old(wal.file)), x.index)),
              None, Some(x))
    {
      SaveSnapshot(x);
      CompactLog(lastApplied);
      assert Node() == Servers.CompactLog(old(Node()), x.index);
      ghost var trace := wal.CompactWAL(lastApplied);
      lastSnapshotIndex := lastApplied;
    }

    method HandleInstallSnapshot(term: nat, data: Bytes)
      requires Valid()
      modifies this, stateMachine
      ensures Valid() && State() == Machines.Install(old(State()), term, S.DecodeBytes(data))
    {
      if term < currentTerm {
        return;
      }
      if state != Follower {
        state := Follower;
      }
      if term > currentTerm {
        currentTerm, votedFor := term, None;
      }
      var x := S.Decode(data);
      if x.Some? {
        Install(x.value);
      }
    }

    method Install(x: S.Snapshot)
      requires Valid()
      modifies this`snapshotFile, this`saved, this`logOffset, this`lastApplied, this`commitIndex, this`log, stateMachine
      ensures Valid() && saved == Some(x)
      ensures Node() == old(Node()).(kv := x.data, offset := x.index, applied := x.index, commit := x.index, log := [])
    {
      SaveSnapshot(x);
      stateMachine.Restore(x.data);
      logOffset, lastApplied, commitIndex, log := x.index, x.index, x.index, [];
    }

    // ---- Starting ----

    /** Fails exactly when there is a snapshot file that does not decode. */
    method LoadPersistedState() returns (ok: bool)
      requires Node() == FreshNode(id, peers) && saved == None
      modifies this, stateMachine
      ensures ok <==> snapshotFile == None || S.DecodeBytes(snapshotFile.value).Some?
      ensures snapshotFile == old(snapshotFile)
      ensures ok ==> Valid() && saved == if snapshotFile == None then None else S.DecodeBytes(snapshotFile.value)
      ensures ok ==> Node() == Recover(id, peers, View(wal.crc, State()).disk)
    {
      if snapshotFile.Some? {
        var x := S.Decode(snapshotFile.value);
        if x == None {
          return false;
        }
        Load(x.value);
      }
      assert Node() == Loaded(id, peers, saved);
      var entries := wal.ReadAll();
      var survivors := KeepAbove(entries, logOffset);
      log := survivors;
      ReplayLog(survivors);
      ok := true;
    }

    method Load(x: S.Snapshot)
      modifies this`saved, this`logOffset, this`lastApplied, this`commitIndex, stateMachine
      ensures saved == Some(x)
      ensures Node() == old(Node()).(kv := x.data, offset := x.index, applied := x.index, commit := x.index)
    {
      saved := Some(x);
      stateMachine.Restore(x.data);
      logOffset, lastApplied, commitIndex := x.index, x.index, x.index;
    }

    method ReplayLog(es: seq<Entry>)
      modifies this`lastApplied, stateMachine
      ensures Node() == ReplayFrom(old(Node()), es)
    {
      for i := 0 to |es|
        invariant Node() == old(Node()).(applied := lastApplied, kv := stateMachine.data)
        invariant ReplayFrom(old(Node()), es) == ReplayFrom(Node(), es[i..])
      {
        assert es[i..][1..] == es[i + 1..];
        lastApplied := es[i].index;
        stateMachine.Apply(es[i]);
      }
    }
  }

  /** NewRaft: a node is built from its disk or not at all. */
  method NewRaft(id: nat, peers: set<nat>, wal: Wal, stateMachine: StateMachine, snapshotFile: Option<Bytes>)
    returns (r: Option<Raft>)
    requires stateMachine.data == map[]
    modifies stateMachine
    ensures r.None? <==> snapshotFile.Some? && S.DecodeBytes(snapshotFile.value).None?
    ensures r.Some? ==>
      var saved := if snapshotFile == None then None else S.DecodeBytes(snapshotFile.value);
      var files := Files(wal.file, wal.temp, saved);
      && fresh(r.value) && r.value.wal == wal && r.value.stateMachine == stateMachine && r.value.Valid()
      && r.value.State() == Machine(Recover(id, peers, Disk(ReadRecords(wal.crc, wal.file), saved)), files)
  {
    var raft := new Raft(id, peers, wal, stateMachine, snapshotFile);
    var ok := raft.LoadPersistedState();
    r := if ok then Some(raft) else None;
  }
}
