/** The life of one node with its disk: everything it can go through, crashes at any byte and restarts
    included, and what memory, disk and history have in common at every moment of it. */
module Lifetimes {
  import opened Common
  import opened StateMachines
  import opened Quorums
  import opened RaftNode
  import opened WalFormat
  import opened Leftovers
  import opened SnapshotCodec
  import opened Memory
  import opened Servers
  import opened Machines

  datatype Event =
    | VoteRequested(vote: VoteArgs)
    | ElectionTimeout
    | VoteAnswered(answer: VoteReply)
    | ClientWrite(data: Bytes)
    | EntriesAnswered(peer: nat, sent: AppendArgs, reply: AppendReply)
    | EntriesArrived(a: AppendArgs)
    /** A snapshot of the history `replayed`. */
    | SnapshotArrived(term: nat, snapshot: Snapshot, replayed: seq<Entry>)
    | Restart
    /** The node dies inside the maybeSnapshot of a follower or of a leader, at its k-th crash point, and is
        restarted. */
    | DiesFollowing(a: AppendArgs, k: nat)
    | DiesLeading(peer: nat, sent: AppendArgs, reply: AppendReply, k: nat)
    /** The node dies with k bytes of the new records written - a message's, a client's or its own no-op -
        and is restarted. */
    | DiesAppending(a: AppendArgs, k: nat)
    | DiesProposing(data: Bytes, k: nat)
    | DiesElected(answer: VoteReply, k: nat)

  /** What the theorem asks of a message: it is contiguous, its entries fit the record format, and a conflict
      lies above what is applied and above the first index the log holds. */
  ghost predicate Safe(n: Node, a: AppendArgs) {
    && WellFormed(a) && AllInRange(a.entries)
    && (a.term >= n.term && !PrevMismatch(Acknowledge(n, a), a) ==> SafeConflict(Acknowledge(n, a), a))
  }

  /** A leader that has recorded a reply, and then moved its commit index. */
  ghost function Recorded(m: Machine, p: nat, sent: AppendArgs, r: AppendReply): Machine {
    m.(node := RecordReply(m.node, p, sent, r))
  }

  ghost function Advanced(m: Machine): Machine {
    m.(node := TryAdvance(m.node))
  }

  /** The reply that makes a leader commit. */
  ghost predicate Commits(m: Machine, p: nat, sent: AppendArgs, r: AppendReply) {
    r.success && sent.entries != [] && CanAdvance(Recorded(m, p, sent, r).node)
  }

  /** A record of the node's own goes behind whole records only, and reads back. */
  ghost predicate Writable(crc: Checksum, m: Machine, e: Entry) {
    Whole(crc, m.files.live) && e.InRange()
  }

  /** The conditions of the theorem. Nothing is appended behind a torn record, and a snapshot is taken only
      when the leftover of a crashed compaction is clear. */
  ghost predicate Permitted(crc: Checksum, m: Machine, history: seq<Entry>, e: Event) {
    match e
    case VoteAnswered(r) => Wins(m.node, r) ==> Writable(crc, m, NoOp(m.node))
    case ClientWrite(data) => m.node.role == Leader ==> Writable(crc, m, Proposal(m.node, data))
    case EntriesAnswered(p, sent, r) => Commits(m, p, sent, r) ==> SnapshotClear(crc, Advanced(Recorded(m, p, sent, r)))
    case EntriesArrived(a) =>
      && Safe(m.node, a) && Appendable(crc, m, a)
      && (Store(crc, m, a).1.success ==> SnapshotClear(crc, Store(crc, m, a).0))
    case SnapshotArrived(term, x, sent) =>
      && Contiguous(sent, 0) && |sent| == x.index && x.data == Replay(map[], sent)
      && (term >= m.node.term ==> UpTo(ReadRecords(crc, m.files.live), x.index) && m.node.applied <= x.index)
    case DiesFollowing(a, k) =>
      && Safe(m.node, a) && Appendable(crc, m, a) && Store(crc, m, a).1.success
      && SnapshotClear(crc, Store(crc, m, a).0)
      && k < |CrashPoints(crc, Store(crc, m, a).0)|
    case DiesLeading(p, sent, r, k) =>
      && Commits(m, p, sent, r) && SnapshotClear(crc, Advanced(Recorded(m, p, sent, r)))
      && k < |CrashPoints(crc, Advanced(Recorded(m, p, sent, r)))|
    case DiesAppending(a, k) =>
      && Safe(m.node, a) && Appendable(crc, m, a) && Stores(View(crc, m), a)
      && k <= |EncodeAll(crc, Rest(Acknowledge(m.node, a), a.entries))|
    case DiesProposing(data, k) =>
      m.node.role == Leader && Writable(crc, m, Proposal(m.node, data)) && k <= |Record(crc, Proposal(m.node, data))|
    case DiesElected(r, k) => Wins(m.node, r) && Writable(crc, m, NoOp(m.node)) && k <= |Record(crc, NoOp(m.node))|
    case _ => true
  }

  /** The files with k bytes of a record of the node's own written. */
  function Partly(crc: Checksum, files: Files, e: Entry, k: nat): Files {
    files.(live := files.live + if k <= |Record(crc, e)| then Record(crc, e)[..k] else [])
  }

  ghost function After(crc: Checksum, m: Machine, e: Event): Machine {
    match e
    case VoteRequested(a) => m.(node := HandleVote(m.node, a).0)
    case ElectionTimeout => m.(node := BecomeCandidate(m.node))
    case VoteAnswered(r) => ServeVote(crc, m, r)
    case ClientWrite(data) => if m.node.role == Leader then ServePropose(crc, m, data) else m
    case EntriesAnswered(p, sent, r) => ServeReply(crc, m, p, sent, r)
    case EntriesArrived(a) => ServeAppend(crc, m, a).0
    case SnapshotArrived(term, x, _) => Install(m, term, Some(x))
    case Restart => Restarted(crc, m, m.files)
    case DiesFollowing(a, k) => CrashedAt(crc, Store(crc, m, a).0, k)
    case DiesLeading(p, sent, r, k) => CrashedAt(crc, Advanced(Recorded(m, p, sent, r)), k)
    case DiesAppending(a, k) => Restarted(crc, m, FilesAfter(crc, m, a, k))
    case DiesProposing(data, k) => Restarted(crc, m, Partly(crc, m.files, Proposal(m.node, data), k))
    case DiesElected(_, k) => Restarted(crc, m, Partly(crc, m.files, NoOp(m.node), k))
  }

  ghost function CrashedAt(crc: Checksum, m: Machine, k: nat): Machine {
    if k < |CrashPoints(crc, m)| then Restarted(crc, m, CrashPoints(crc, m)[k]) else m
  }

  /** The full log from index 1 on, as the event leaves it. */
  ghost function HistoryAfter(crc: Checksum, m: Machine, history: seq<Entry>, e: Event): seq<Entry>
    requires m.node.offset <= |history|
  {
    match e
    case VoteAnswered(r) => if Wins(m.node, r) then history + [NoOp(m.node)] else history
    case ClientWrite(data) => if m.node.role == Leader then history + [Proposal(m.node, data)] else history
    case EntriesArrived(a) => NewHistory(View(crc, m), history, a)
    case SnapshotArrived(term, _, sent) => if term >= m.node.term then sent else history
    case DiesFollowing(a, _) => NewHistory(View(crc, m), history, a)
    case DiesAppending(a, k) =>
      KeptAfter(View(crc, m), history, a, Fitting(crc, Rest(Acknowledge(m.node, a), a.entries), k))
    case DiesProposing(data, k) => IfWhole(crc, history, Proposal(m.node, data), k)
    case DiesElected(_, k) => IfWhole(crc, history, NoOp(m.node), k)
    case _ => history
  }

  function IfWhole(crc: Checksum, history: seq<Entry>, e: Entry, k: nat): seq<Entry> {
    if k == |Record(crc, e)| then history + [e] else history
  }

  // ---- One event ----

  lemma StoreKeepsSound(crc: Checksum, m: Machine, history: seq<Entry>, a: AppendArgs)
    requires Sound(crc, m, history) && Safe(m.node, a) && Appendable(crc, m, a)
    ensures Sound(crc, Store(crc, m, a).0, NewHistory(View(crc, m), history, a))
  {
    StoreKeepsAgreement(View(crc, m), history, a);
    StoreIsStoreAppend(crc, m, a);
    LeftoverGrows(crc, LeftIn(m.files.temp), m.node.applied, Store(crc, m, a).0.node.applied);
  }

  lemma NodeKeepsSound(crc: Checksum, m: Machine, t: Machine, history: seq<Entry>)
    requires Sound(crc, m, history) && t.files == m.files
    requires t.node.log == m.node.log && t.node.offset == m.node.offset && t.node.applied == m.node.applied
    requires t.node.commit == m.node.commit && t.node.kv == m.node.kv
    ensures Sound(crc, t, history)
  {
    SameMemory(View(crc, m), View(crc, t), history);
  }

  lemma CommitKeepsSound(crc: Checksum, m: Machine, history: seq<Entry>)
    requires Sound(crc, m, history)
    ensures Sound(crc, Advanced(m), history)
  {
    CommitKeepsAgreement(View(crc, m), history);
    AdvanceGrows(m.node);
    LeftoverGrows(crc, LeftIn(m.files.temp), m.node.applied, Advanced(m).node.applied);
  }

  lemma AdvanceGrows(n: Node)
    ensures TryAdvance(n).applied >= n.applied
  {
    if CanAdvance(n) { CatchUpFrame(n.(commit := MajorityPick(n.matched, n.LastIndex()))); }
  }

  lemma AdvanceKeepsSound(crc: Checksum, m: Machine, history: seq<Entry>)
    requires Sound(crc, m, history) && (CanAdvance(m.node) ==> SnapshotClear(crc, Advanced(m)))
    ensures Sound(crc, ServeAdvance(crc, m), history)
  {
    if CanAdvance(m.node) {
      CommitKeepsSound(crc, m, history);
      SnapshotKeepsSound(crc, Advanced(m), history);
    }
  }

  lemma ReplyKeepsSound(crc: Checksum, m: Machine, history: seq<Entry>, p: nat, sent: AppendArgs, r: AppendReply)
    requires Sound(crc, m, history)
    requires Commits(m, p, sent, r) ==> SnapshotClear(crc, Advanced(Recorded(m, p, sent, r)))
    ensures Sound(crc, ServeReply(crc, m, p, sent, r), history)
  {
    var t := Recorded(m, p, sent, r);
    ReplyParts(crc, m, p, sent, r, t);
    NodeKeepsSound(crc, m, t, history);
    if r.success && sent.entries != [] { AdvanceKeepsSound(crc, t, history); }
  }

  lemma ReplyParts(crc: Checksum, m: Machine, p: nat, sent: AppendArgs, r: AppendReply, t: Machine)
    requires t == Recorded(m, p, sent, r)
    ensures ServeReply(crc, m, p, sent, r) == if r.success && sent.entries != [] then ServeAdvance(crc, t) else t
    ensures t.files == m.files && t.node.log == m.node.log && t.node.offset == m.node.offset
    ensures t.node.applied == m.node.applied && t.node.commit == m.node.commit && t.node.kv == m.node.kv
  {
  }

  lemma WriteKeepsSound(crc: Checksum, m: Machine, t: Machine, history: seq<Entry>, e: Entry)
    requires Sound(crc, m, history) && Writable(crc, m, e) && e.index == m.node.LastIndex() + 1
    requires t.node.log == m.node.log + [e] && t.node.offset == m.node.offset && t.node.applied == m.node.applied
    requires t.node.commit == m.node.commit && t.node.kv == m.node.kv
    requires t.files == m.files.(live := m.files.live + Record(crc, e))
    ensures Sound(crc, t, history + [e])
  {
    CutRecord(crc, m.files.live, e, |Record(crc, e)|);
    assert Record(crc, e)[..|Record(crc, e)|] == Record(crc, e);
    WrittenIsSound(crc, m, t, history, e);
  }

  lemma VoteKeepsSound(crc: Checksum, m: Machine, history: seq<Entry>, r: VoteReply)
    requires Sound(crc, m, history) && (Wins(m.node, r) ==> Writable(crc, m, NoOp(m.node)))
    ensures Wins(m.node, r) ==> Sound(crc, ServeVote(crc, m, r), history + [NoOp(m.node)])
    ensures !Wins(m.node, r) ==> Sound(crc, ServeVote(crc, m, r), history)
  {
    VoteEffect(m.node, r);
    if Wins(m.node, r) {
      VoteFiles(crc, m, r);
      WriteKeepsSound(crc, m, ServeVote(crc, m, r), history, NoOp(m.node));
    } else {
      NodeKeepsSound(crc, m, ServeVote(crc, m, r), history);
    }
  }

  lemma VoteFiles(crc: Checksum, m: Machine, r: VoteReply)
    requires Wins(m.node, r)
    ensures ServeVote(crc, m, r).files == m.files.(live := m.files.live + Record(crc, NoOp(m.node)))
  {
  }

  lemma InstallKeepsSound(crc: Checksum, m: Machine, history: seq<Entry>, term: nat, x: Snapshot, sent: seq<Entry>)
    requires Sound(crc, m, history) && Permitted(crc, m, history, SnapshotArrived(term, x, sent))
    ensures Sound(crc, Install(m, term, Some(x)), if term >= m.node.term then sent else history)
  {
    if term >= m.node.term {
      InstallKeepsAgreement(View(crc, m), term, x, sent);
      LeftoverGrows(crc, LeftIn(m.files.temp), m.node.applied, x.index);
    }
  }

  /** Every event keeps memory, WAL, snapshot, leftover and history in agreement. */
  lemma EventKeepsAgreement(crc: Checksum, m: Machine, history: seq<Entry>, e: Event)
    requires Sound(crc, m, history) && Permitted(crc, m, history, e)
    ensures Sound(crc, After(crc, m, e), HistoryAfter(crc, m, history, e))
  {
    if IsDeath(e) {
      DeathKeepsSound(crc, m, history, e);
    } else if IsElection(e) {
      ElectionKeepsSound(crc, m, history, e);
    } else {
      LogEventKeepsSound(crc, m, history, e);
    }
  }

  predicate IsElection(e: Event) {
    e.VoteRequested? || e.ElectionTimeout? || e.VoteAnswered?
  }

  lemma ElectionKeepsSound(crc: Checksum, m: Machine, history: seq<Entry>, e: Event)
    requires Sound(crc, m, history) && Permitted(crc, m, history, e) && IsElection(e)
    ensures Sound(crc, After(crc, m, e), HistoryAfter(crc, m, history, e))
  {
    if e.VoteAnswered? {
      VoteKeepsSound(crc, m, history, e.answer);
    } else {
      OnlyTermChanges(crc, m, e);
      NodeKeepsSound(crc, m, After(crc, m, e), history);
    }
  }

  lemma OnlyTermChanges(crc: Checksum, m: Machine, e: Event)
    requires e.VoteRequested? || e.ElectionTimeout?
    ensures var t := After(crc, m, e);
      && t.files == m.files && t.node.log == m.node.log && t.node.offset == m.node.offset
      && t.node.applied == m.node.applied
      && t.node.commit == m.node.commit && t.node.kv == m.node.kv
  {
  }

  lemma LogEventKeepsSound(crc: Checksum, m: Machine, history: seq<Entry>, e: Event)
    requires Sound(crc, m, history) && Permitted(crc, m, history, e) && !IsElection(e) && !IsDeath(e)
    ensures Sound(crc, After(crc, m, e), HistoryAfter(crc, m, history, e))
  {
    match e
    case ClientWrite(data) => ClientKeepsSound(crc, m, history, data);
    case EntriesAnswered(p, sent, r) => ReplyKeepsSound(crc, m, history, p, sent, r);
    case EntriesArrived(a) => ArrivalKeepsSound(crc, m, history, a);
    case SnapshotArrived(term, x, sent) => InstallKeepsSound(crc, m, history, term, x, sent);
  }

  lemma ClientKeepsSound(crc: Checksum, m: Machine, history: seq<Entry>, data: Bytes)
    requires Sound(crc, m, history) && (m.node.role == Leader ==> Writable(crc, m, Proposal(m.node, data)))
    ensures m.node.role == Leader ==> Sound(crc, ServePropose(crc, m, data), history + [Proposal(m.node, data)])
  {
    if m.node.role == Leader { WriteKeepsSound(crc, m, ServePropose(crc, m, data), history, Proposal(m.node, data)); }
  }

  predicate IsDeath(e: Event) {
    e.Restart? || e.DiesFollowing? || e.DiesLeading? || e.DiesAppending? || e.DiesProposing? || e.DiesElected?
  }

  lemma DeathKeepsSound(crc: Checksum, m: Machine, history: seq<Entry>, e: Event)
    requires Sound(crc, m, history) && Permitted(crc, m, history, e) && IsDeath(e)
    ensures Sound(crc, After(crc, m, e), HistoryAfter(crc, m, history, e))
  {
    if e.DiesFollowing? {
      DeathFollowingIsSound(crc, m, history, e.a, e.k);
    } else if e.DiesLeading? {
      DeathLeadingIsSound(crc, m, history, e.peer, e.sent, e.reply, e.k);
    } else {
      DeathWritingIsSound(crc, m, history, e);
    }
  }

  lemma DeathFollowingIsSound(crc: Checksum, m: Machine, history: seq<Entry>, a: AppendArgs, k: nat)
    requires Sound(crc, m, history) && Permitted(crc, m, history, DiesFollowing(a, k))
    ensures Sound(crc, CrashedAt(crc, Store(crc, m, a).0, k), NewHistory(View(crc, m), history, a))
  {
    StoreKeepsSound(crc, m, history, a);
    CrashInSnapshot(crc, Store(crc, m, a).0, NewHistory(View(crc, m), history, a), k);
  }

  lemma DeathLeadingIsSound(crc: Checksum, m: Machine, history: seq<Entry>, p: nat, sent: AppendArgs,
                            r: AppendReply, k: nat)
    requires Sound(crc, m, history) && Permitted(crc, m, history, DiesLeading(p, sent, r, k))
    ensures Sound(crc, CrashedAt(crc, Advanced(Recorded(m, p, sent, r)), k), history)
  {
    NodeKeepsSound(crc, m, Recorded(m, p, sent, r), history);
    CommitKeepsSound(crc, Recorded(m, p, sent, r), history);
    CrashInSnapshot(crc, Advanced(Recorded(m, p, sent, r)), history, k);
  }

  lemma DeathAppendingIsSound(crc: Checksum, m: Machine, history: seq<Entry>, a: AppendArgs, k: nat)
    requires Sound(crc, m, history) && Permitted(crc, m, history, DiesAppending(a, k))
    ensures Sound(crc, After(crc, m, DiesAppending(a, k)), HistoryAfter(crc, m, history, DiesAppending(a, k)))
  {
    CrashAtAnyByte(crc, m, history, a, k);
  }

  lemma DeathProposingIsSound(crc: Checksum, m: Machine, history: seq<Entry>, data: Bytes, k: nat)
    requires Sound(crc, m, history) && Permitted(crc, m, history, DiesProposing(data, k))
    ensures Sound(crc, After(crc, m, DiesProposing(data, k)), HistoryAfter(crc, m, history, DiesProposing(data, k)))
  {
    AppendIsSound(crc, m, history, Proposal(m.node, data), k);
  }

  lemma DeathElectedIsSound(crc: Checksum, m: Machine, history: seq<Entry>, r: VoteReply, k: nat)
    requires Sound(crc, m, history) && Permitted(crc, m, history, DiesElected(r, k))
    ensures Sound(crc, After(crc, m, DiesElected(r, k)), HistoryAfter(crc, m, history, DiesElected(r, k)))
  {
    AppendIsSound(crc, m, history, NoOp(m.node), k);
  }

  lemma DeathWritingIsSound(crc: Checksum, m: Machine, history: seq<Entry>, e: Event)
    requires Sound(crc, m, history) && Permitted(crc, m, history, e)
    requires e.Restart? || e.DiesAppending? || e.DiesProposing? || e.DiesElected?
    ensures Sound(crc, After(crc, m, e), HistoryAfter(crc, m, history, e))
  {
    match e
    case Restart => RestartKeepsSound(crc, m, history);
    case DiesAppending(a, k) => DeathAppendingIsSound(crc, m, history, a, k);
    case DiesProposing(data, k) => DeathProposingIsSound(crc, m, history, data, k);
    case DiesElected(r, k) => DeathElectedIsSound(crc, m, history, r, k);
  }

  lemma ArrivalKeepsSound(crc: Checksum, m: Machine, history: seq<Entry>, a: AppendArgs)
    requires Sound(crc, m, history) && Permitted(crc, m, history, EntriesArrived(a))
    ensures Sound(crc, ServeAppend(crc, m, a).0, NewHistory(View(crc, m), history, a))
  {
    StoreKeepsSound(crc, m, history, a);
    if Store(crc, m, a).1.success { SnapshotKeepsSound(crc, Store(crc, m, a).0, NewHistory(View(crc, m), history, a)); }
  }

  // ---- Whole lives ----

  /** A life: a new node with an empty disk, and then one event after the other. */
  datatype Life = Born(id: nat, peers: set<nat>) | Then(past: Life, event: Event)

  datatype Moment = Moment(machine: Machine, history: seq<Entry>)

  ghost function Next(crc: Checksum, m: Moment, e: Event): Moment {
    Moment(After(crc, m.machine, e),
           if m.machine.node.offset <= |m.history| then HistoryAfter(crc, m.machine, m.history, e) else m.history)
  }

  /** Where a life has led. */
  ghost function Now(crc: Checksum, life: Life): Moment {
    match life
    case Born(i, peers) => Moment(Machine(FreshNode(i, peers), Files([], None, None)), [])
    case Then(past, e) => Next(crc, Now(crc, past), e)
  }

  ghost predicate Possible(crc: Checksum, life: Life) {
    match life
    case Born(_, _) => true
    case Then(past, e) => Possible(crc, past) && Permitted(crc, Now(crc, past).machine, Now(crc, past).history, e)
  }

  lemma NextIsSound(crc: Checksum, m: Moment, e: Event)
    requires Sound(crc, m.machine, m.history) && Permitted(crc, m.machine, m.history, e)
    ensures Sound(crc, Next(crc, m, e).machine, Next(crc, m, e).history)
  {
    EventKeepsAgreement(crc, m.machine, m.history, e);
  }

  lemma BirthIsSound(crc: Checksum, i: nat, peers: set<nat>)
    ensures Sound(crc, Machine(FreshNode(i, peers), Files([], None, None)), [])
  {
    NothingLeft(crc, 0);
    assert ParseRecord(crc, []) == None;
  }

  lemma {:induction false} LifeIsSound(crc: Checksum, life: Life)
    requires Possible(crc, life)
    ensures Sound(crc, Now(crc, life).machine, Now(crc, life).history)
  {
    match life
    case Born(i, peers) => BirthIsSound(crc, i, peers);
    case Then(past, e) =>
      LifeIsSound(crc, past);
      NextIsSound(crc, Now(crc, past), e);
  }

  /** The map is the replay of the history up to lastApplied - every entry once, in order, none skipped -, the
      log holds what is not compacted away, and a restart rebuilds the same offset, the same log, and the
      replay of the whole history. */
  ghost predicate Recoverable(crc: Checksum, m: Machine, history: seq<Entry>) {
    var n, r := m.node, Restarted(crc, m, m.files).node;
    && n.offset <= n.applied <= |history| && n.LastIndex() == |history|
    && n.kv == Replay(map[], history[..n.applied])
    && (forall index: nat :: n.offset < index <= |history| ==> n.EntryAt(index) == Some(history[index - 1]))
    && r.offset == n.offset && r.log == n.log && r.kv == Replay(map[], history)
  }

  lemma SoundIsRecoverable(crc: Checksum, m: Machine, history: seq<Entry>)
    requires Sound(crc, m, history)
    ensures Recoverable(crc, m, history)
  {
    LogContiguous(m.node, history);
    RestartAgrees(View(crc, m), history);
    forall index: nat | m.node.offset < index <= |history| ensures m.node.EntryAt(index) == Some(history[index - 1]) {
      EntryOf(m.node, history, index);
    }
  }

  /** Wherever a possible life has led, nothing is lost. */
  lemma LifeIsRecoverable(crc: Checksum, life: Life)
    requires Possible(crc, life)
    ensures Recoverable(crc, Now(crc, life).machine, Now(crc, life).history)
  {
    LifeIsSound(crc, life);
    SoundIsRecoverable(crc, Now(crc, life).machine, Now(crc, life).history);
  }

  /** The machine just before the snapshot that the event takes, if it takes one. */
  ghost function BeforeSnapshot(crc: Checksum, m: Machine, e: Event): Option<Machine> {
    match e
    case EntriesArrived(a) =>
      var (t, r) := Store(crc, m, a);
      if r.success && DueSnapshot(t.node).Some? then Some(t) else None
    case EntriesAnswered(p, sent, r) =>
      var t := Advanced(Recorded(m, p, sent, r));
      if Commits(m, p, sent, r) && DueSnapshot(t.node).Some? then Some(t) else None
    case _ => None
  }

  /** Everything the theorem asks of the event but a clear leftover. */
  ghost predicate OtherwisePermitted(crc: Checksum, m: Machine, e: Event) {
    e.EntriesArrived? ==> Safe(m.node, e.a) && Appendable(crc, m, e.a)
  }

  lemma BeforeSnapshotIsSound(crc: Checksum, m: Machine, history: seq<Entry>, e: Event) returns (history': seq<Entry>)
    requires Sound(crc, m, history) && BeforeSnapshot(crc, m, e).Some? && OtherwisePermitted(crc, m, e)
    ensures Sound(crc, BeforeSnapshot(crc, m, e).value, history')
    ensures After(crc, m, e) == MaybeSnapshot(crc, BeforeSnapshot(crc, m, e).value)
    ensures Permitted(crc, m, history, e) <==> SnapshotClear(crc, BeforeSnapshot(crc, m, e).value)
  {
    if e.EntriesArrived? {
      StoreKeepsSound(crc, m, history, e.a);
      history' := NewHistory(View(crc, m), history, e.a);
    } else {
      var t := Recorded(m, e.peer, e.sent, e.reply);
      NodeKeepsSound(crc, m, t, history);
      CommitKeepsSound(crc, t, history);
      history' := history;
    }
  }

  /** A restart would find the log as it is in memory. */
  ghost predicate FindsLog(crc: Checksum, m: Machine) {
    Restarted(crc, m, m.files).node.log == m.node.log
  }

  lemma EventSnapshotRecovers(crc: Checksum, m: Machine, history: seq<Entry>, e: Event)
    requires Sound(crc, m, history) && BeforeSnapshot(crc, m, e).Some? && OtherwisePermitted(crc, m, e)
    ensures var b := BeforeSnapshot(crc, m, e).value;
      && (FindsLog(crc, After(crc, m, e)) <==> Clear(crc, LeftIn(b.files.temp), Surviving(crc, b)))
      && (Permitted(crc, m, history, e) <==> Clear(crc, LeftIn(b.files.temp), Surviving(crc, b)))
  {
    var history' := BeforeSnapshotIsSound(crc, m, history, e);
    SnapshotIsRecoverable(crc, BeforeSnapshot(crc, m, e).value, history');
  }

  /** In a life that has been possible so far, the condition on leftovers is exact: after a message or a reply
      that takes a snapshot, a restart finds the log if and only if the leftover is clear when the snapshot
      is taken - which is what the theorem above asks of the event. */
  lemma NextSnapshotRecovers(crc: Checksum, life: Life, e: Event)
    requires Possible(crc, life)
    requires BeforeSnapshot(crc, Now(crc, life).machine, e).Some?
    requires OtherwisePermitted(crc, Now(crc, life).machine, e)
    ensures var m := Now(crc, life).machine;
      var b := BeforeSnapshot(crc, m, e).value;
      && (FindsLog(crc, After(crc, m, e)) <==> Clear(crc, LeftIn(b.files.temp), Surviving(crc, b)))
      && (Permitted(crc, m, Now(crc, life).history, e) <==> Clear(crc, LeftIn(b.files.temp), Surviving(crc, b)))
  {
    LifeIsSound(crc, life);
    EventSnapshotRecovers(crc, Now(crc, life).machine, Now(crc, life).history, e);
  }
}
