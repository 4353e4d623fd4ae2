/** One Raft node as a value, and what each handler does to it. These functions specify the methods of the
    class in Raft.dfy and are the steps of the cluster in Cluster.dfy. Snapshots are added in Server.dfy. */
module RaftNode {
  import opened Common
  import opened StateMachines
  import opened Quorums

  datatype Role = Follower | Candidate | Leader

  datatype VoteArgs = VoteArgs(term: nat, candidate: nat, lastIndex: nat, lastTerm: nat)

  datatype VoteReply = VoteReply(term: nat, granted: bool)

  datatype AppendArgs = AppendArgs(term: nat, leader: nat, prevIndex: nat, prevTerm: nat,
                                   entries: seq<Entry>, leaderCommit: nat)

  /** The reply's ConflictTerm is always 0 in the source and never read, so it has no field here. */
  datatype AppendReply = AppendReply(term: nat, success: bool, conflictIndex: nat)

  datatype Node = Node(
    id: nat, peers: set<nat>,
    term: nat, votedFor: Option<nat>, log: seq<Entry>, offset: nat,
    commit: nat, applied: nat, kv: Kv,
    role: Role, next: map<nat, nat>, matched: map<nat, nat>, votes: nat,
    leaderId: nat, lastSnapshot: nat)
  {
    /** toSlicePos; negative for an index the log no longer holds. */
    function Pos(index: nat): int {
      index - offset - 1
    }

    predicate Has(index: nat) {
      0 <= Pos(index) < |log|
    }

    /** entryAt. */
    function EntryAt(index: nat): Option<Entry> {
      if Has(index) then Some(log[Pos(index)]) else None
    }

    /** lastLogIndexAndTerm. */
    function LastIndex(): nat {
      if log == [] then offset else log[|log| - 1].index
    }

    function LastTerm(): nat {
      if log == [] then 0 else log[|log| - 1].term
    }
  }

  /** A node that has just started and loaded nothing. */
  function FreshNode(i: nat, peers: set<nat>): Node {
    Node(i, peers, 0, None, [], 0, 0, 0, map[], Follower, map[], map[], 0, 0, 0)
  }

  function Slot(m: map<nat, nat>, p: nat): nat {
    if p in m then m[p] else 0
  }

  // ---- Elections ----

  /** isCandidateLogUpToDate. */
  predicate UpToDate(lastTerm: nat, lastIndex: nat, n: Node) {
    lastTerm > n.LastTerm() || (lastTerm == n.LastTerm() && lastIndex >= n.LastIndex())
  }

  function StepDown(n: Node, term: nat): Node {
    n.(term := term, role := Follower, votedFor := None)
  }

  /** HandleRequestVote. */
  function HandleVote(n: Node, a: VoteArgs): (Node, VoteReply) {
    if a.term < n.term then (n, VoteReply(n.term, false))
    else
      var m := if a.term > n.term then StepDown(n, a.term) else n;
      if (m.votedFor == None || m.votedFor == Some(a.candidate)) && UpToDate(a.lastTerm, a.lastIndex, m) then
        (m.(votedFor := Some(a.candidate)), VoteReply(m.term, true))
      else
        (m, VoteReply(m.term, false))
  }

  /** becomeCandidate, up to the requests it sends: the tally starts at its own vote. */
  function BecomeCandidate(n: Node): Node {
    n.(term := n.term + 1, role := Candidate, votedFor := Some(n.id), votes := 1)
  }

  /** The request requestVotes sends to every other peer. An empty log counts as index 0, whatever the
      offset. */
  function VoteRequest(n: Node): VoteArgs {
    if n.log == [] then VoteArgs(n.term, n.id, 0, 0)
    else VoteArgs(n.term, n.id, n.log[|n.log| - 1].index, n.log[|n.log| - 1].term)
  }

  function NoOp(n: Node): Entry {
    Entry(n.term, n.LastIndex() + 1, NO_OP)
  }

  /** becomeLeader: every peer, the leader itself included, starts at the old last index plus one; then the
      no-op goes into the log. */
  function BecomeLeader(n: Node): Node {
    n.(role := Leader,
       next := n.next + map p | p in n.peers :: n.LastIndex() + 1,
       matched := n.matched + map p | p in n.peers :: 0,
       log := n.log + [NoOp(n)])
  }

  /** The goroutine of requestVotes on a reply. */
  function HandleVoteReply(n: Node, r: VoteReply): Node {
    if r.term > n.term then StepDown(n, r.term)
    else if r.granted then
      var m := n.(votes := n.votes + 1);
      if m.votes >= Majority(m.peers) && m.role == Candidate then BecomeLeader(m) else m
    else n
  }

  // ---- Replication ----

  /** Propose: the new entry goes to the end of the leader's log. */
  function Proposal(n: Node, data: Bytes): Entry {
    Entry(n.term, n.LastIndex() + 1, data)
  }

  function Propose(n: Node, data: Bytes): Node {
    n.(log := n.log + [Proposal(n, data)])
  }

  /** What a heartbeat tick sends to peer p. A peer whose next entry is compacted away gets the zero-valued
      message; a nextIndex beyond the end of the log makes the slice expression panic (None). */
  function PeerMessage(n: Node, p: nat): Option<AppendArgs> {
    var next := Slot(n.next, p);
    var pos := n.Pos(next);
    if pos < 0 then Some(AppendArgs(n.term, n.id, 0, 0, [], n.commit))
    else if pos > |n.log| then None
    else
      var prevTerm := if n.Has(next - 1) then n.log[n.Pos(next - 1)].term else 0;
      Some(AppendArgs(n.term, n.id, next - 1, prevTerm, n.log[pos..], n.commit))
  }

  /** Where the merge loop of HandleAppendEntries stops: entries before `from` are already in the log; with
      `conflict` set the log holds a different term at entry `from`. */
  datatype Scan = Scan(from: nat, conflict: bool)

  function ScanFrom(n: Node, entries: seq<Entry>, i: nat): (s: Scan)
    requires i <= |entries|
    ensures i <= s.from <= |entries|
    ensures s.conflict ==> s.from < |entries| && n.Has(entries[s.from].index)
    decreases |entries| - i
  {
    if i == |entries| then Scan(i, false)
    else
      match n.EntryAt(entries[i].index)
      case None => Scan(i, false)
      case Some(e) => if e.term != entries[i].term then Scan(i, true) else ScanFrom(n, entries, i + 1)
  }

  /** The log after the merge loop: cut at the first term conflict. */
  function Cut(n: Node, entries: seq<Entry>): Node {
    var s := ScanFrom(n, entries, 0);
    if s.conflict then n.(log := n.log[..n.Pos(entries[s.from].index)]) else n
  }

  /** The entries left to append after the merge loop. */
  function Rest(n: Node, entries: seq<Entry>): seq<Entry> {
    entries[ScanFrom(n, entries, 0).from..]
  }

  /** One turn of the loop that applies committed entries; an index the log does not hold is skipped. */
  function ApplyNext(n: Node): (m: Node)
    ensures m == n.(applied := n.applied + 1, kv := m.kv)
  {
    match n.EntryAt(n.applied + 1)
    case None => n.(applied := n.applied + 1)
    case Some(e) => n.(applied := n.applied + 1, kv := ApplyCommand(n.kv, e.data))
  }

  /** The loop that applies newly committed entries. */
  function CatchUp(n: Node): Node
    decreases n.commit - n.applied
  {
    if n.applied < n.commit then CatchUp(ApplyNext(n)) else n
  }

  /** The follower's commit rule: capped by its own last index. */
  function FollowCommit(n: Node, leaderCommit: nat): Node {
    if leaderCommit > n.commit then
      n.(commit := if leaderCommit < n.LastIndex() then leaderCommit else n.LastIndex())
    else n
  }

  /** The term and role changes at the top of HandleAppendEntries, for a message that is not stale. */
  function Acknowledge(n: Node, a: AppendArgs): Node {
    n.(role := Follower, leaderId := a.leader,
       votedFor := if a.term > n.term then None else n.votedFor,
       term := if a.term > n.term then a.term else n.term)
  }

  predicate PrevMismatch(n: Node, a: AppendArgs) {
    a.prevIndex > 0 && n.Has(a.prevIndex) && n.log[n.Pos(a.prevIndex)].term != a.prevTerm
  }

  predicate Gap(n: Node, a: AppendArgs) {
    var rest := Rest(n, a.entries);
    var cut := Cut(n, a.entries);
    rest != [] && rest[0].index != cut.offset + |cut.log| + 1
  }

  /** HandleAppendEntries without the snapshot at its end. The oracles say whether the disk played along:
      `truncOk` that the WAL found the record to truncate after, `appendOk` that the new records were
      written. */
  function HandleAppend(n: Node, a: AppendArgs, truncOk: bool, appendOk: bool): (Node, AppendReply) {
    if a.term < n.term then (n, AppendReply(n.term, false, 0))
    else Merge(Acknowledge(n, a), a, truncOk, appendOk)
  }

  /** The rest of the handler, once the message's term has been taken over. */
  function Merge(m: Node, a: AppendArgs, truncOk: bool, appendOk: bool): (Node, AppendReply) {
    if PrevMismatch(m, a) then (m, AppendReply(m.term, false, 0))
    else
      var cut := Cut(m, a.entries);
      if ScanFrom(m, a.entries, 0).conflict && !truncOk then (cut, AppendReply(m.term, false, 0))
      else if Gap(m, a) then (cut, AppendReply(m.term, false, cut.offset + |cut.log| + 1))
      else
        var merged := cut.(log := cut.log + Rest(m, a.entries));
        if Rest(m, a.entries) != [] && !appendOk then (merged, AppendReply(m.term, false, 0))
        else (CatchUp(FollowCommit(merged, a.leaderCommit)), AppendReply(m.term, true, 0))
  }

  /** tryAdvanceCommitIndex without the snapshot at its end. */
  ghost predicate CanAdvance(n: Node) {
    var pick := MajorityPick(n.matched, n.LastIndex());
    pick != 0 && n.Has(pick) && n.log[n.Pos(pick)].term == n.term
  }

  ghost function TryAdvance(n: Node): Node {
    if CanAdvance(n) then CatchUp(n.(commit := MajorityPick(n.matched, n.LastIndex()))) else n
  }

  /** The bookkeeping half of the heartbeat goroutine on a reply. Note that after stepping down it goes on
      to the bookkeeping. */
  function RecordReply(n: Node, p: nat, sent: AppendArgs, r: AppendReply): Node {
    var m := if r.term > sent.term then StepDown(n, r.term) else n;
    if r.success then
      if sent.entries == [] then m
      else
        var last := sent.entries[|sent.entries| - 1].index;
        m.(matched := m.matched[p := last], next := m.next[p := last + 1])
    else if r.conflictIndex > 0 then m.(next := m.next[p := r.conflictIndex])
    else if Slot(m.next, p) > 1 then m.(next := m.next[p := Slot(m.next, p) - 1])
    else m
  }

  /** The heartbeat goroutine on a reply to the message `sent` to peer p. */
  ghost function HandleAppendReply(n: Node, p: nat, sent: AppendArgs, r: AppendReply): Node {
    var m := RecordReply(n, p, sent, r);
    if r.success && sent.entries != [] then TryAdvance(m) else m
  }

  // ---- What the merge means ----

  /** The entries of a message follow its PrevLogIndex one by one. */
  predicate WellFormed(a: AppendArgs) {
    Contiguous(a.entries, a.prevIndex)
  }

  /** The log holds entry i of the message, with the same term. */
  ghost predicate AgreesAt(n: Node, a: AppendArgs, i: nat) {
    i < |a.entries| && n.Has(a.prevIndex + 1 + i) && n.log[n.Pos(a.prevIndex + 1 + i)].term == a.entries[i].term
  }

  ghost predicate AgreeOn(n: Node, a: AppendArgs, k: nat) {
    forall i :: 0 <= i < k ==> AgreesAt(n, a, i)
  }

  /** Where the loop stops is the first entry the log lacks or holds with another term. */
  lemma {:induction false} ScanMeaning(n: Node, a: AppendArgs, i: nat)
    requires WellFormed(a) && i <= |a.entries| && AgreeOn(n, a, i)
    ensures AgreeOn(n, a, ScanFrom(n, a.entries, i).from)
    ensures !AgreesAt(n, a, ScanFrom(n, a.entries, i).from)
    ensures ScanFrom(n, a.entries, i).conflict <==>
            ScanFrom(n, a.entries, i).from < |a.entries| && n.Has(a.prevIndex + 1 + ScanFrom(n, a.entries, i).from)
    decreases |a.entries| - i
  {
    if AgreesAt(n, a, i) {
      ScanMeaning(n, a, i + 1);
    }
  }

  /** The entries of the message attach to the log. */
  predicate Attaches(n: Node, a: AppendArgs) {
    a.entries != [] ==> n.offset <= a.prevIndex <= n.offset + |n.log|
  }

  /** For a contiguous message the handler accepts exactly when the entries attach to the log; the gap guard
      never fires after a truncation. */
  lemma GapMeaning(n: Node, a: AppendArgs)
    requires WellFormed(a)
    ensures Gap(n, a) <==> !Attaches(n, a)
    ensures Gap(n, a) ==> Cut(n, a.entries) == n && !ScanFrom(n, a.entries, 0).conflict
  {
    ScanMeaning(n, a, 0);
    var s := ScanFrom(n, a.entries, 0);
    if s.from > 0 { assert AgreesAt(n, a, s.from - 1) && AgreesAt(n, a, 0); }
    if s.from < |a.entries| { assert Rest(n, a.entries)[0] == a.entries[s.from]; }
  }

  /** What the merge leaves: the agreeing entries keep the log's own copies, the rest are the message's. */
  ghost predicate IsMergeAt(n: Node, a: AppendArgs, k: nat, log: seq<Entry>) {
    && k <= |a.entries| && AgreeOn(n, a, k)
    && (k == |a.entries| ==> log == n.log)
    && (k < |a.entries| ==> !AgreesAt(n, a, k) && 0 <= n.Pos(a.prevIndex + 1 + k) <= |n.log|
                            && log == n.log[..n.Pos(a.prevIndex + 1 + k)] + a.entries[k..])
  }

  lemma MergeShape(n: Node, a: AppendArgs)
    requires WellFormed(a) && Attaches(n, a)
    ensures IsMergeAt(n, a, ScanFrom(n, a.entries, 0).from, Cut(n, a.entries).log + Rest(n, a.entries))
  {
    ScanMeaning(n, a, 0);
    var k := ScanFrom(n, a.entries, 0).from;
    if k == |a.entries| {
      assert n.log + [] == n.log;
    } else {
      if k > 0 { assert AgreesAt(n, a, k - 1); }
      if !n.Has(a.prevIndex + 1 + k) { assert n.log[..n.Pos(a.prevIndex + 1 + k)] == n.log; }
    }
  }

  /** The simple merge: the log as it stands when it already holds all the entries, otherwise the log up to
      PrevLogIndex followed by the entries, which drops everything after the first conflict. */
  ghost function SimpleMerge(n: Node, a: AppendArgs): seq<Entry>
    requires Attaches(n, a)
  {
    if AgreeOn(n, a, |a.entries|) then n.log
    else n.log[..a.prevIndex - n.offset] + a.entries
  }

  /** Entries that agree in index and term are equal: log matching between the log and the message. */
  ghost predicate Matching(n: Node, a: AppendArgs) {
    forall i :: 0 <= i < |a.entries| && AgreesAt(n, a, i) ==> n.log[n.Pos(a.prevIndex + 1 + i)] == a.entries[i]
  }

  lemma MergeIsSimple(n: Node, a: AppendArgs, k: nat, log: seq<Entry>)
    requires Attaches(n, a) && Matching(n, a) && IsMergeAt(n, a, k, log)
    ensures log == SimpleMerge(n, a)
  {
    if k < |a.entries| {
      var p := a.prevIndex - n.offset;
      assert n.Pos(a.prevIndex + 1 + k) == p + k;
      forall i | 0 <= i < k ensures n.log[p + i] == a.entries[i] {
        assert AgreesAt(n, a, i);
        assert n.Pos(a.prevIndex + 1 + i) == p + i;
      }
      assert n.log[p..p + k] == a.entries[..k];
      calc {
        log;
        n.log[..p + k] + a.entries[k..];
        { assert n.log[..p + k] == n.log[..p] + n.log[p..p + k]; }
        (n.log[..p] + a.entries[..k]) + a.entries[k..];
        { assert a.entries == a.entries[..k] + a.entries[k..]; }
        n.log[..p] + a.entries;
      }
    }
  }

  lemma MergeStaysContiguous(n: Node, a: AppendArgs, k: nat, log: seq<Entry>)
    requires WellFormed(a) && Contiguous(n.log, n.offset) && IsMergeAt(n, a, k, log)
    ensures Contiguous(log, n.offset)
  {
    if k < |a.entries| {
      var p := n.Pos(a.prevIndex + 1 + k);
      forall j | 0 <= j < |log| ensures log[j].index == n.offset + 1 + j {
        if j >= p { assert log[j] == a.entries[k + (j - p)]; }
      }
    }
  }

  /** The merge loop refines the simple merge, and keeps the log contiguous. */
  lemma MergeRefinesSimpleMerge(n: Node, a: AppendArgs)
    requires WellFormed(a) && Contiguous(n.log, n.offset) && Attaches(n, a)
    ensures Contiguous(Cut(n, a.entries).log + Rest(n, a.entries), n.offset)
    ensures Matching(n, a) ==> Cut(n, a.entries).log + Rest(n, a.entries) == SimpleMerge(n, a)
  {
    var k := ScanFrom(n, a.entries, 0).from;
    var log := Cut(n, a.entries).log + Rest(n, a.entries);
    assert IsMergeAt(n, a, k, log) by { MergeShape(n, a); }
    MergeStaysContiguous(n, a, k, log);
    if Matching(n, a) { MergeIsSimple(n, a, k, log); }
  }

  // ---- What catching up means ----

  /** Applying the entries from position i up to position j. */
  function ReplayRange(kv: Kv, log: seq<Entry>, i: nat, j: nat): Kv
    requires i <= j <= |log|
  {
    Replay(kv, log[i..j])
  }

  /** Catching up changes nothing but applied and the map, and applies the log entries from position i up to
      position j in index order, none skipped and none twice. */
  lemma {:induction false} CatchUpReplays(n: Node, i: nat, j: nat)
    requires n.applied == n.offset + i && n.commit == n.offset + j && i <= j <= |n.log|
    ensures CatchUp(n) == n.(applied := n.commit, kv := ReplayRange(n.kv, n.log, i, j))
    decreases j - i
  {
    if i == j {
      ReplayNone(n.kv, n.log, i);
    } else {
      CatchUpReplays(ApplyNext(n), i + 1, j);
      ReplayStep(n.kv, n.log, i, j);
    }
  }

  lemma ReplayNone(kv: Kv, log: seq<Entry>, i: nat)
    requires i <= |log|
    ensures ReplayRange(kv, log, i, i) == kv
  {
  }

  lemma ReplayStep(kv: Kv, log: seq<Entry>, i: nat, j: nat)
    requires i < j <= |log|
    ensures ReplayRange(ApplyCommand(kv, log[i].data), log, i + 1, j) == ReplayRange(kv, log, i, j)
  {
    assert log[i..j] == [log[i]] + log[i + 1..j];
    ReplayConcat(kv, [log[i]], log[i + 1..j]);
    assert [log[i]][..0] == [];
    assert Replay(kv, []) == kv;
  }

  /** Catching up never touches the log or the bookkeeping. */
  lemma {:induction false} CatchUpFrame(n: Node)
    ensures CatchUp(n) == n.(applied := CatchUp(n).applied, kv := CatchUp(n).kv)
    ensures CatchUp(n).applied == if n.applied < n.commit then n.commit else n.applied
    decreases n.commit - n.applied
  {
    if n.applied < n.commit {
      CatchUpFrame(ApplyNext(n));
    }
  }

  /** Applying the entries of a log that begins behind the offset, from those above one index through
      another. */
  function ReplayIndices(kv: Kv, log: seq<Entry>, offset: nat, above: nat, through: nat): Kv
    requires offset <= above <= through <= offset + |log|
  {
    ReplayRange(kv, log, above - offset, through - offset)
  }

  /** The effects of catching up go on from those already applied. */
  lemma CatchUpEffects(f: Node)
    requires f.offset <= f.applied && (f.applied < f.commit ==> f.commit <= f.offset + |f.log|)
    ensures var n := CatchUp(f);
      if f.applied < f.commit then
        n.log == f.log && n.commit == f.commit
        && n.kv == ReplayIndices(f.kv, f.log, f.offset, f.applied, f.commit)
      else n == f
  {
    if f.applied < f.commit {
      Effects(f, CatchUp(f), f.applied - f.offset, f.commit - f.offset);
    } else {
      NothingToApply(f);
    }
  }

  lemma Effects(f: Node, n: Node, i: nat, j: nat)
    requires f.applied == f.offset + i && f.commit == f.offset + j && i <= j <= |f.log| && n == CatchUp(f)
    ensures n.kv == ReplayIndices(f.kv, f.log, f.offset, f.applied, f.commit) && n.commit == f.commit
    ensures n.log == f.log
  {
    CatchUpReplays(f, i, j);
    PositionsOf(f.kv, f.log, f.offset, f.applied, f.commit, i, j);
  }

  lemma PositionsOf(kv: Kv, log: seq<Entry>, offset: nat, above: nat, through: nat, i: nat, j: nat)
    requires above == offset + i && through == offset + j && i <= j <= |log|
    ensures ReplayIndices(kv, log, offset, above, through) == ReplayRange(kv, log, i, j)
  {
  }

  lemma NothingToApply(f: Node)
    requires f.commit <= f.applied
    ensures CatchUp(f) == f
  {
  }
}
