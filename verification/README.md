# jinkv: a verified model

jinkv is a key-value store replicated with a hand-written Raft: elections, log replication, commit,
log compaction, snapshots, and a write-ahead log (WAL) on disk. This project models it and proves what it
keeps - and, where the code keeps it only under a condition, what that condition is.

The model has three layers. They share their definitions: the functions that specify the methods of a node
are the steps of the cluster, and the functions that specify the file operations are what recovery reads.

* **Bytes.** `BigEndian`, `WalFormat`, `SnapshotCodec` and `RpcCodec` define the formats and prove round
  trips and torn-write behaviour. `Leftovers` is about the temporary file a crashed compaction leaves and what
  the next compaction makes of it. `Readers`, `Wals` and the codec methods are the reading loops, buffers and
  the mutable WAL file, proved against those definitions. The checksum is an arbitrary function into 32 bits.
* **One node.** `RaftNode` is the node as a value and each handler as a function; `StateMachines` is the
  command parser and replay; `Quorums` is the arithmetic of the commit rule. `Handlers`, `Services` and
  `Commands` say what these functions answer and change without using them: in terms of log, offset and
  message, of files and records, and of words and white space. `Memory` and `Servers` put a node
  next to its WAL, read as a list of records, and its snapshot, and relate both to the full history of its
  log. `Machines` is the same with the bytes of its files, torn ends and leftovers included, and `Lifetimes`
  follows a node through any sequence of events, crashes at any byte and restarts included, and `LostEntries`
  is a life at whose end a confirmed entry is lost. `Rafts.Raft` is
  the node as the program runs it, a class with the program's fields, every method proved against the
  functions above for any contents of the files. `Replacements` is a small example of what recovery can do to
  the map. `CatchingUp` counts the round trips a follower needs.
* **The cluster.** `Clusters` is the state machine of any number of nodes and the messages between them.
  `Invariants`, `Growth`, `Elections`, `Leadership`, `Replication` and `Delivery` carry the inductive
  invariant; `Safety` states what holds over every run, and `Terms` how terms and votes move; `CommitOrder`
  adds per-peer ordering of replies, and `LateReplies` and `LateRuns` say exactly when a commit index moves
  back without it. `Availability` builds, from any reachable state, the rest of a run in which a command is
  written, and `Shortages` shows when there is none. `Deadlocks` is about elections after compaction.

`dafny verify dfyconfig.toml` checks everything.

## What the cluster theorems assume

The program does not enforce these; the theorems of `Safety`, `Terms`, `CommitOrder`, `LateReplies`,
`Availability`, `Shortages` and `CatchingUp` are about runs in which they hold. `Deadlocks` is about runs of the
same steps in which all nodes have snapshots.

* Every handler, reply handler and tick is one atomic step, although the code checks some conditions outside
  its lock (raft/raft.go:231, 242, 456-461).
* A reply is delivered only while its sender is still in the term and role it asked from; otherwise it is
  lost. The code counts an old vote for a new election (240-243) and can lower its term (681-685).
* LeaderCommit is read together with the entries; the code reads it after unlocking (651, 672).
* Nodes do not restart: term and vote are never written to disk (559-595), so a restarted node votes again in
  a term in which it has voted (`Services.VotesAgainAfterRestart`).
* Nodes do not take snapshots, so every log starts at index 1.

Messages may be lost. AppendEntries and their replies may be delayed, reordered and delivered any number of
times. Any WAL append or truncation may fail, on any node, at any time.

## Where the code and its documentation differ

* README.md:91-92 says a crash during compaction can never corrupt or lose the log. The live file is untouched
  until the rename (`Leftovers.LiveFileIsOldOrNew`), but a temporary file left by a crash is opened for
  appending, so the next compaction writes behind whatever is in it. Whole leftover records stay in front and
  are harmless up to the compaction index (`Leftovers.WholeLeftover`). Behind a torn record the surviving
  entries are recovered only if their bytes happen to begin with themselves (`Leftovers.CompactionRecovers`,
  an exact condition). Four torn bytes are enough: a restart then finds an empty log, or one that begins with
  an entry that never existed (`Machines.TornLeftoverLosesLog`, `Machines.TornLeftoverMisleads`), and four torn
  bytes are what a crash four bytes into a compaction leaves (`Machines.TornLeftoverArises`).
  `LostEntries.LifeLosesEntry` is a life that ends this way: a follower of three nodes dies in a compaction, is
  restarted, confirms two more entries, and the next restart does not find the log they left.
* README.md:33-34 says writes continue as long as a majority of nodes is alive. The commit rule sorts N + 1
  indices, the leader's own slot, always 0, among them, so for odd N it takes one node more than a majority:
  `Shortages.WritesNeedEnough` is the exact condition, and a cluster of three cannot write with one node down
  (`Shortages.TwoOfThreeAreTooFew`).
* README.md:58-59 says some node will win an election, and 74 that there is one vote per term. A candidate
  whose log is compacted away asks with index 0 and term 0 (raft/raft.go:196-203), so every node with a
  snapshot or an entry refuses it (`Handlers.CompactedCandidateIsRefused`). Once all nodes have compacted their
  whole logs and nobody leads, nobody ever will (`Deadlocks.NobodyEverLeads`). One vote per term holds while no
  voter restarts (`Terms.OneVotePerTerm`, `Services.VotesAgainAfterRestart`).
* A leader does not know the term of the last entry it compacted away and sends 0 for it, so a follower that
  still holds that entry refuses (`Handlers.TickIsAccepted`).
* README.md:81-82 says a lagging follower catches up in one round trip. A follower with a shorter log needs
  one to report its length and one to receive the entries, and a conflicting log is walked back index by
  index; `CatchingUp.OneRoundIsEnough` says exactly when one is enough.
* A conflict at the first index a log holds empties the log but leaves the WAL, because TruncateAfter needs a
  record before the cut (wal/wal.go:180-213); `Servers.ConflictRecovers` is the exact condition.
* Recovery applies every WAL entry, committed or not (raft/raft.go:590-593). If a leader then replaces one,
  its effect stays in the map (`Servers.EffectsStay`). The history keeps what was applied if and only if
  conflicts lie above lastApplied (`Servers.AppliedSurvives`); `Replacements.ReplacedEntryStaysApplied` is the
  smallest case in which no history explains the map any more.
* A snapshot older than the receiver's log empties the log in memory, but a restart brings part of it back:
  it does not if and only if no WAL record lies above the snapshot (`Servers.InstallRecovers`). Below the
  receiver's own offset it is worse: every entry is put at the wrong index (`Servers.StaleInstallShifts`).
* The commit index is assigned without a maximum (raft/raft.go:501); `LateReplies.CommitDropsExactly` says
  exactly when a step lowers one, and `LateRuns.LateReplyLowersCommit` is a run in which it happens.
* With an even number of nodes, and if the leader's own slot in matchIndex were not 0, the commit rule could
  pick an index held by half of the nodes: `Quorums.EvenClusterCounterexample`. A leader's own slot stays 0.

## Model

| member | source | states |
|---|---|---|
| Safety.ElectionSafety | raft/raft.go:195-308 | In every run, two nodes that lead in the same term, at any two moments, are the same node, for any number of nodes. |
| Safety.LogMatching | raft/raft.go:342-395 | In every run, two logs at any two moments that hold an entry with the same index and term are identical through it, although a missing PrevLogIndex passes. |
| Safety.LogMatchingInFlight | raft/raft.go:632-676 | The same between a log and an AppendEntries still in flight, including the entry before its first. |
| Safety.CommittedEntriesInLaterLeaders | raft/raft.go:261-308 | What any node has committed or applied is in the log of every leader of that or a later term, then and ever after. |
| Safety.LeaderCompletenessOverRuns | raft/raft.go:469-509 | After the step in which the commit rule moves a leader's commit index, every leader of a later term holds the same entries up to it. |
| Safety.StateMachineSafety | raft/raft.go:397-412 | Two nodes that have both applied an index applied the same entry there, at any two moments of any run. |
| Safety.SameAppliedSameMap | raft/raft.go:503-509 | Nodes that have applied equally far hold the same map, the replay of their logs up to there. |
| Safety.CommittedByMajority | raft/raft.go:472-501 | A committed prefix is behind a majority of distinct nodes: each of them, at some moment up to now and in one and the same term, held it; those still in that term hold it now. |
| Safety.AckMoment | raft/raft.go:397-418 | Behind every confirmation there is a moment at which the confirming node, in that term, held the leader's entries. |
| Safety.MessagesAreSound | raft/raft.go:632-673 | Every AppendEntries in flight carries a LeaderCommit inside what it covers, and a non-stale empty one reaches only a follower holding the entry before it. |
| Safety.FollowerCommitSoundness | raft/raft.go:398-405 | When a delivery moves a follower's commit index, it moves to LeaderCommit, and the follower's log agrees up to there with the log the sender had at the tick that sent the message. |
| Safety.NextIndexInRange | raft/raft.go:616-645 | A leader's nextIndex for every peer, itself included, is between 1 and its last index plus one, so building a message never slices out of bounds. |
| Safety.StepKeepsInv | raft/raft.go:278-512 | Every step of every kind keeps the cluster's inductive invariant. |
| Safety.TickSends | raft/raft.go:597-675 | In every run a tick puts in flight, for every other node, exactly one message: term, name and commit index of the leader at that tick, its log from nextIndex on, and index and term of the entry before; and nothing else. |
| Terms.HigherTermsAreTaken | raft/raft.go:230-237 | In every run, a step that hands a node a term - by vote request, vote reply, AppendEntries or its reply - leaves it in the later of the two terms, as a follower if the term was new, and it is never in a lower term or leads one afterwards. |
| Terms.OneVotePerTerm | raft/raft.go:278-308 | In every run, a node that answers two vote requests of one term with yes answers the same candidate. |
| Availability.EnoughCanWrite | raft/raft.go:469-501 | From every reachable state, whatever is in flight and whoever leads, if more than half of N + 1 nodes are up there is a way on in which only they act, a leader takes a client's command, and every one of them applies it. |
| Shortages.TooFewCannotWrite | raft/raft.go:472-484 | If no more than half of N + 1 nodes are up, no way on in which only they act ever commits or applies, on any node, a command taken from then on. |
| Shortages.WritesNeedEnough | raft/raft.go:469-501 | So from every reachable state a set of nodes can have a new command applied by itself if and only if it has more than half of N + 1 nodes. |
| Shortages.TwoOfThreeAreTooFew | raft/raft.go:472-484 | In a cluster of three, two nodes are a majority and cannot write by themselves. |
| Deadlocks.NobodyEverLeads | raft/raft.go:195-248 | When every node has an empty log behind a snapshot, nobody leads, and no vote or entry is in flight, no run of timeouts, votes, heartbeats and losses ever makes a leader. |
| Deadlocks.SnapshotCompacts | raft/snapshot.go:157-188 | A node that does not lead and has applied its whole log when a snapshot is due is then such a node. |
| Deadlocks.RestartCompacts | raft/raft.go:562-595 | A restart makes a node with an empty log behind a snapshot, a leader too, such a node. |
| Invariants.LeaderCompleteness | raft/raft.go:261-276 | An index chosen in a term, held by a quorum and of that term, is in the log of the leader of every later term: induction over the terms in between and the vote's up-to-date test. |
| Leadership.TermIsNew | raft/raft.go:195-248 | A candidate that has counted a majority of votes wins a term in which nobody has led before. |
| Delivery.EmptyMessageMatches | raft/raft.go:343-351 | An empty message that is not stale finds the sender's entries in the receiver's log through PrevLogIndex. |
| Delivery.AdvanceIsChosen | raft/raft.go:484-501 | The index the commit rule picks has been confirmed by a quorum in the leader's term. |
| Delivery.DeliverAppendKeepsInv | raft/raft.go:319-418 | Delivering an AppendEntries - fresh, stale or repeated, with or without disk failures - keeps the invariant. |
| Delivery.DeliverAnswerKeepsInv | raft/raft.go:677-710 | Handling a reply, fresh or repeated, together with the commit it may cause, keeps the invariant. |
| Delivery.TickKeepsInv | raft/raft.go:597-675 | A heartbeat tick puts only sound messages in flight. |
| Elections.TimeoutKeepsInv | raft/raft.go:438-451 | Becoming a candidate keeps the invariant. |
| Elections.AnswerVoteKeepsInv | raft/raft.go:278-308 | Answering a vote request keeps it: one vote per node and term over all of history, and none the voter's log forbids. |
| Leadership.CountVoteKeepsInv | raft/raft.go:217-247 | Counting a vote keeps it, the reply that makes a leader with its no-op included. |
| Leadership.ProposeKeepsInv | raft/raft.go:737-758 | A client's command appended by the leader keeps it. |
| CommitOrder.CommitNeverMovesBack | raft/raft.go:469-501 | When each peer's replies are handled in the order of the requests, no node's commit index ever decreases. |
| LateReplies.CommitDropsExactly | raft/raft.go:677-710 | In any run a step lowers some node's commit index if and only if it delivers to that leader a successful reply for fewer entries than are committed, from a peer recorded to hold them, while exactly as many values reach the commit index as the rule needs. |
| LateRuns.LateReplyLowersCommit | raft/raft.go:689-695 | A run of three nodes in which a late reply to an older message takes a leader's commit index back. |
| Replication.DeliveryEffect | raft/raft.go:319-418 | One AppendEntries leaves the log as it was or an initial part of the sender's log, and keeps every initial part the two already shared. |
| RaftNode.MergeRefinesSimpleMerge | raft/raft.go:353-395 | Accepted entries leave a contiguous log, which for matching entries is the log itself if it holds them all and otherwise the part up to PrevLogIndex followed by the entries. |
| RaftNode.GapMeaning | raft/raft.go:375-388 | The gap guard rejects exactly when the entries do not attach to the log, and never after a truncation. |
| RaftNode.ScanMeaning | raft/raft.go:354-373 | The merge loop stops at the first entry the log lacks or holds with another term. |
| RaftNode.CatchUpReplays | raft/raft.go:407-412 | The apply loop replays the log entries between lastApplied and the commit index, each once and in order, and changes nothing else. |
| Handlers.VoteAnswer | raft/raft.go:261-308 | A vote is granted if and only if the term is not old, that term's vote is free or the candidate's already, and its last term and index are lexicographically at least those of the last entry, 0 and the offset for an empty log; a newer term is taken over in either case. |
| Handlers.AppendAnswer | raft/raft.go:319-388 | For any node and offset, a contiguous message that is not old is accepted if and only if the log does not hold the entry before it with another term, its entries leave no hole and begin no earlier than the offset, and the disk finds what is to be cut and writes what is to be written; only a hole or an early beginning is answered with a hint, and such a message leaves the log alone. |
| Handlers.AppendFields | raft/raft.go:323-340 | The handler takes over the sender's term, follows it, remembers it as leader and forgets its vote if the term is newer, whatever it answers. |
| Handlers.AppendedLog | raft/raft.go:352-395 | An accepted message leaves the log as it is if it brings nothing new; otherwise the log goes on from the first entry it lacked or held with another term with the message's, and ends where the message ends. |
| Handlers.AppendedCommit | raft/raft.go:397-412 | If the leader's commit index is ahead, the node's becomes that or the end of the log, whichever comes first, and what lies between lastApplied and it is applied once and in order. |
| Handlers.ResumesAtHint | raft/raft.go:375-388 | After a refusal with a hint, a message that begins at the hint and knows the term of the last entry is accepted, whatever the offset. |
| Handlers.MissingIsSkipped | raft/raft.go:407-412 | Indices that the log does not hold are passed over when it is their turn to be applied. |
| Handlers.HeartbeatMeaning | raft/raft.go:612-673 | A message of a tick carries term, name and commit index of the leader and the whole log from nextIndex on with the term of the entry before; it is empty for a peer whose next entry is compacted away and a crash for a nextIndex too far behind the end. |
| Handlers.TickIsAccepted | raft/raft.go:627-650 | Whether a follower with any offset accepts it, by the two logs alone, the 0 sent for a compacted entry included. |
| Handlers.ReplyAnswer | raft/raft.go:677-710 | A reply of a newer term makes the leader a follower of that term without a vote; a confirmation sets matchIndex and nextIndex to the last entry sent and the one behind it; a hint sets nextIndex, any other refusal moves it back by one but not below 1; no other slot moves. |
| Handlers.ReplyTerm | raft/raft.go:681-696 | The commit rule that follows leaves all that as it is. |
| Handlers.CommitRule | raft/raft.go:469-509 | Whatever value sits in the middle of the recorded indices and the last index becomes the commit index if the log holds an entry of the leader's term there, and what it commits is applied once and in order; otherwise nothing changes. |
| Handlers.VoteCounted | raft/raft.go:217-247 | A vote reply of a newer term deposes; a granted one is counted, and makes a candidate with more than half of all votes leader, with every peer expected to lack exactly the no-op its log now ends with. |
| Handlers.ElectedByMajority | raft/raft.go:438-451 | With its own vote and k others a node leads the next term if and only if they are more than half of all nodes, with its old log and a no-op. |
| Handlers.RequestMeaning | raft/raft.go:195-208 | A candidate claims exactly the log it has, unless that is empty behind a snapshot: then it claims nothing, and only then would it refuse itself. |
| Handlers.CompactedCandidateIsRefused | raft/raft.go:195-208 | A candidate that has compacted its whole log is refused by every node with a snapshot or an entry of a real term, one with the same log included. |
| Services.AppendServed | raft/raft.go:319-418 | The answer of a node with its files and the snapshot at the end: accepted if and only if the message neither contradicts the log nor is detached from it and, at a conflict, the WAL has a record of the index before; a message refused for what it is leaves log and files alone. |
| Services.AppendStored | raft/raft.go:359-395 | An accepted message changes no file but the WAL: its records from the first new entry on go behind everything that was there, or behind the first record of the index before a conflict. |
| Services.SnapshotMeaning | raft/snapshot.go:157-188 | A snapshot is taken exactly when lastApplied is three ahead of the last one, or behind it, and its entry is in memory; it holds map, index and that entry's term, and log and WAL begin behind it. |
| Services.CompactionMeaning | raft/raft.go:718-732 | compactLog drops the entries up to an index that is in memory and applied, and does nothing for any other. |
| Services.InstallMeaning | raft/raft.go:768-806 | An installed snapshot that is not old makes the node a follower of its term, without a vote if the term is newer, and its whole state if it decodes; the WAL stays. |
| Services.ReplyServed | raft/raft.go:677-713 | A reply of a newer term deposes the leader, whatever it commits and whatever snapshot follows. |
| Services.ProposalMeaning | raft/raft.go:737-758 | A command gets the next index and the leader's term and goes to the end of log and WAL. |
| Services.VoteServed | raft/raft.go:177-190 | Only the vote that makes a leader touches a file: it appends the no-op to the WAL. |
| Services.RestartForgets | raft/raft.go:562-595 | After a restart from any files term is 0, there is no vote and no office, only what the snapshot covers is committed, and the log is the records above it, all of them applied to the snapshot's map. |
| Services.VotesAgainAfterRestart | raft/raft.go:278-308 | A node that has granted its vote in a term grants it once more after a restart, to any candidate whose log is up to date and to no other. |
| Quorums.PickMajorityIndex | raft/raft.go:469-484 | Collecting the map in any order, adding the leader's last index, sorting and taking the middle gives the value with more than half of the N+1 values at or above it and at most half above it. |
| Quorums.PickIsHeldByQuorum | raft/raft.go:472-484 | The pick is held by a majority of distinct nodes although the leader counts twice, when its own slot is below the pick or the number of nodes is odd. |
| Quorums.EvenClusterCounterexample | raft/raft.go:472-484 | For four nodes and a leader's slot at its last index, the pick can be held by two nodes only. |
| Quorums.PickMonotone | raft/raft.go:472-484 | The pick never drops while match indices and the leader's log only grow. |
| CatchingUp.NewLeaderCatchesUp | raft/raft.go:172-185 | A follower with L entries holds a new leader's whole log after at most L+3 round trips, after at most two if its log was an initial part of the leader's. |
| CatchingUp.RoundProgress | raft/raft.go:689-708 | Each round trip ends the catching up or lowers an explicit measure of nextIndex and log length, the failed truncation at index 1 included. |
| CatchingUp.OneRoundIsEnough | raft/raft.go:342-395 | One round trip is enough if and only if the follower has the entry before nextIndex with the leader's term and no conflict is at an index 1 without a record before it. |
| CatchingUp.CommitFollows | raft/raft.go:397-412 | When the follower holds the leader's log, one more round brings its commit index up to the leader's, applies up to it, and leaves its map the replay of the leader's log if it was one of its own. |
| CatchingUp.NewLeaderSpreadsCommit | raft/raft.go:172-185 | So after at most L+4 rounds it has committed and applied what the new leader had committed a round before. |
| CatchingUp.AgreementIsOnDisk | wal/wal.go:180-213 | While disk and memory agree, there is a record to truncate after for every index of the log. |
| Lifetimes.LifeIsRecoverable | raft/raft.go:562-595 | Wherever a node's life has led - votes, proposals, merges, snapshots, installs, crashes at any byte of the WAL or of a compaction, restarts - the map is the replay of the history through lastApplied and a restart rebuilds the same offset, log and replayed history, as long as nothing is appended behind a torn record and every compaction finds its leftover clear. |
| Lifetimes.NextSnapshotRecovers | raft/raft.go:397-418 | The condition on leftovers is exact: after a life that has been possible so far, a message or reply that stores or commits entries and then takes a snapshot leaves a log that a restart finds if and only if the leftover is clear at the moment of that snapshot, and this is exactly what permits the event. |
| LostEntries.LifeLosesEntry | raft/raft.go:397-418 | A possible life - a crash four bytes into a compaction, a restart - and a message that is acceptable and confirmed, after which a restart does not find the entry it brought: it finds an empty log or one that begins with an entry of index 2^32, for every checksum function. |
| LostEntries.LaterIsNotPermitted | wal/wal.go:236-248 | The theorem about lives does not permit that message, although everything else it asks of it holds: its condition on leftovers cannot be dropped. |
| Lifetimes.EventKeepsAgreement | raft/snapshot.go:157-188 | Each event keeps memory, WAL bytes, snapshot, leftover and history in agreement. |
| Lifetimes.VoteKeepsSound | raft/raft.go:161-248 | A vote reply leaves the history alone or, when it makes a leader, extends it by the no-op, in memory and on disk. |
| Lifetimes.WriteKeepsSound | raft/raft.go:737-758 | A record of the node's own extends the history, in memory and in the bytes of the WAL. |
| Lifetimes.ReplyKeepsSound | raft/raft.go:677-710 | A reply with its commit, its applications and its snapshot leaves the history alone. |
| Replacements.ReplacedEntryStaysApplied | raft/raft.go:582-593 | The smallest case: after a restart and a leader that replaces an uncommitted set command, no history explains the map. |
| Servers.AppliedSurvives | raft/raft.go:353-395 | An accepted message leaves the applied part of the history as it was if and only if its conflict, if there is one, lies above lastApplied. |
| Servers.EffectsStay | raft/raft.go:407-412 | Whatever a merge replaces, the map goes on from the effects already applied. |
| Servers.RecoveryAgrees | raft/raft.go:562-595 | A restart from any disk that covers a history rebuilds its offset, log, last index and replay. |
| Machines.CrashInSnapshot | raft/snapshot.go:157-188 | A crash before the snapshot is saved, at any byte of the new WAL, or after the rename loses nothing, when the leftover was clear. |
| Machines.SnapshotIsRecoverable | wal/wal.go:236-248 | A restart after a snapshot finds the compacted log if and only if the leftover was clear. |
| Machines.TornLeftoverLosesLog | wal/wal.go:236-248 | With four bytes of a torn record in the leftover, a restart after the snapshot does not find the entries that were to survive it, for every checksum function. |
| Machines.TornLeftoverMisleads | wal/wal.go:236-248 | What it finds instead is an empty log, or one that begins with an index that is the first survivor's term moved up by 32 bits. |
| Machines.TornLeftoverArises | wal/wal.go:236-248 | A crash four bytes into a compaction leaves just that. |
| Servers.CompactionKeepsEntries | raft/raft.go:718-732 | For any node, maybeSnapshot moves the offset to at most lastApplied and leaves every entry above it, the last index and the map as they were. |
| Servers.StoreKeepsAgreement | raft/raft.go:319-418 | HandleAppendEntries with its WAL edits keeps agreement on the merged history, when a conflict lies above lastApplied and above the first index held. |
| Servers.SnapshotKeepsAgreement | raft/snapshot.go:157-188 | A snapshot keeps agreement on the same history when the compacted WAL holds the survivors behind stale records. |
| Servers.ConflictAtOffset | raft/raft.go:359-366 | A conflict at the first index held, with no record before it, empties the log in memory and leaves the WAL, so that a restart brings the conflicting entries back. |
| Servers.ConflictRecovers | raft/raft.go:354-366 | After a conflict above lastApplied, recovery rebuilds the log in memory if and only if the conflict is not at the first index held or the WAL still has a record of the offset. |
| Servers.CrashWhileAppending | raft/raft.go:390-395 | A crash after j of the new records recovers the merged history without the records not yet written. |
| Machines.CrashAtAnyByte | wal/wal.go:80-105 | A crash after any number of bytes of the new records recovers the merged history through the last record that fits wholly. |
| Servers.InstallKeepsAgreement | raft/raft.go:768-806 | An installed snapshot that replays a history leaves memory and disk in agreement on it if and only if no WAL record lies above it. |
| Servers.InstallRecovers | raft/raft.go:797-802 | After any install, whatever its index, a restart finds the empty log again if and only if no WAL record lies above the snapshot; otherwise it finds exactly those records. |
| Servers.NothingAbove | raft/raft.go:797-802 | None does when the local log ends at or before the snapshot. |
| Servers.StaleInstallResurrects | raft/raft.go:797-802 | Installing a snapshot inside the local log empties the log, but a restart brings back the entries behind it. |
| Servers.StaleInstallShifts | raft/raft.go:797-802 | Installing one from below the local offset puts, after a restart, every entry at the wrong index. |
| Rafts.Raft.HandleRequestVote | raft/raft.go:278-308 | The method refines the vote function of the cluster's steps and touches nothing on disk. |
| Rafts.Raft.StartElection | raft/raft.go:438-451 | becomeCandidate raises the term, votes for itself and asks with its last entry, or with 0 and 0 for an empty log. |
| Rafts.Raft.Lead | raft/raft.go:161-193 | becomeLeader resets nextIndex and matchIndex for every peer and appends the no-op to log and WAL. |
| Rafts.Raft.HandleAppendEntries | raft/raft.go:319-418 | For any files, the method, with its merge, append and apply loops and the snapshot at its end, leaves node, WAL bytes, leftover and snapshot as the specification says and returns its reply. |
| Rafts.Raft.DropConflict | raft/raft.go:352-373 | The merge loop finds the first entry to append and cuts log and WAL bytes at a term conflict, or reports that the WAL has no record to cut behind. |
| Rafts.Raft.StoreAndApply | raft/raft.go:390-412 | The rest is appended to log and WAL, the commit index follows the leader's, and what is newly committed is applied. |
| Rafts.Raft.HandleReply | raft/raft.go:677-710 | The reply goroutine refines the bookkeeping and the commit rule. |
| Rafts.Raft.TryAdvanceCommitIndex | raft/raft.go:469-512 | The method moves the commit index to the majority pick exactly when the entry there is of the current term, applies up to it and snapshots if due. |
| Rafts.Raft.Tick | raft/raft.go:597-675 | Every other peer gets the message built from its nextIndex; building fails exactly when some peer's nextIndex, the leader's own included, lies beyond the log. |
| Rafts.Raft.CountVote | raft/raft.go:217-247 | A vote reply steps the node down, counts, or makes it leader with its no-op in log and WAL. |
| Rafts.Raft.Propose | raft/raft.go:737-758 | Only a leader appends; the entry gets the next index and the current term and goes to log and WAL. |
| Rafts.Raft.TakeSnapshotIfDue | raft/snapshot.go:157-188 | Snapshot file, compacted log and compacted WAL follow the specification, the unsigned difference included. |
| Rafts.Raft.CompactLog | raft/raft.go:718-732 | The log is cut behind an applied index above the offset; any other index changes nothing. |
| Rafts.Raft.SaveSnapshot | raft/snapshot.go:99-120 | The file then decodes to the snapshot, whenever that fits the format. |
| Rafts.Raft.LoadPersistedState | raft/raft.go:562-595 | Loading fails exactly on a snapshot file that does not decode, and otherwise gives what recovery gives. |
| Rafts.Raft.HandleInstallSnapshot | raft/raft.go:768-806 | The method installs exactly what the payload decodes to, or only takes over the term. |
| Rafts.NewRaft | raft/raft.go:105-129 | A node is built if and only if there is no snapshot file or it decodes; then it is what recovery makes of the files, works on those files, and is ready for every other method. |
| Wals.Wal.ReadAll | wal/wal.go:154-176 | The reading loop returns the records up to the first that does not parse. |
| Wals.Wal.ReadOne | wal/wal.go:109-150 | Reading field by field parses the record at the cursor and moves behind it, or fails on a short read or a wrong checksum. |
| Wals.Wal.Append | wal/wal.go:80-105 | Checksum and encoded entry together are the record, at the end of the file. |
| Wals.Wal.TruncateAfter | wal/wal.go:180-213 | The file keeps exactly the bytes of the records through the first with that index, or stays as it is and the call fails. |
| Wals.Wal.CompactWAL | wal/wal.go:219-265 | The file becomes what was left in the temporary file followed by the records above the index; the disk states a crash could find are listed byte by byte. |
| Leftovers.LiveFileIsOldOrNew | wal/wal.go:219-265 | At every byte of a compaction the live file is untouched before the rename, and after it reads back above the index what it did before if and only if the leftover was clear. |
| Leftovers.CrashKeepsShape | wal/wal.go:236-248 | However often compactions crash, the leftover stays whole records up to the last index and at most one torn one. |
| WalFormat.SurvivesByteCut | wal/wal.go:109-176 | A WAL cut after any number of bytes reads back exactly the records that fit wholly before the cut, for every checksum function. |
| WalFormat.FitsExists | wal/wal.go:154-176 | For every cut there is a longest list of records that fit wholly. |
| WalFormat.ReadConcat | wal/wal.go:154-176 | Records at the start of a file are read back, then reading goes on with whatever follows. |
| WalFormat.TornRecord | wal/wal.go:109-150 | No strict prefix of a record parses. |
| WalFormat.ReadIsPrefix | wal/wal.go:154-176 | Whatever is read back is in range and is encoded at the very start of the file. |
| WalFormat.RecordRoundTrip | wal/wal.go:37-68 | A record reads back if and only if its payload is shorter than 2^32 bytes. |
| WalFormat.TruncateListMeaning | wal/wal.go:180-213 | The kept list ends with the first record of the index; there is none exactly when no record has it. |
| Leftovers.CompactionRecovers | wal/wal.go:236-248 | Behind any leftover of whole records and a torn one up to the compaction index, the survivors are recovered if and only if, put behind the torn bytes, their bytes begin with themselves, for every checksum function. |
| Leftovers.WholeLeftover | wal/wal.go:236-248 | Leftover whole records are read back in front, and recovery keeps exactly the survivors if and only if none of them lies above the compaction index. |
| Leftovers.FourBytesHide | wal/wal.go:236-248 | Behind the first four bytes of any record, what is read back above the compaction index is never the survivors, for every checksum function, once the first has an index below 2^32. |
| Leftovers.FourBytesMislead | wal/wal.go:109-150 | Behind them, the first entry read back above the compaction index, if there is one, is made up: its index is the first survivor's term times 2^32. |
| Leftovers.AppendBehindTorn | wal/wal.go:80-105 | A record appended behind a torn one is read back, after everything before it and with nothing after it, if and only if the torn bytes followed by the record begin with the record itself and nothing parses behind that. |
| SnapshotCodec.RoundTrip | raft/snapshot.go:18-95 | Decoding an encoding gives back the snapshot, for every order of the map and any bytes behind it. |
| SnapshotCodec.TornSnapshot | raft/snapshot.go:53-95 | No strict prefix of an encoding decodes. |
| SnapshotCodec.Encode | raft/snapshot.go:18-51 | Ranging over the map in any order writes the encoding of some list of exactly its pairs, each once. |
| SnapshotCodec.Decode | raft/snapshot.go:53-95 | The decoding loop over the reader is the decoding function the round trip is about. |
| RpcCodec.AppendRoundTrip | rpc/rpc.go:79-159 | Decoding the encoding of an AppendEntries gives it back if and only if it has fewer than 2^32 entries, each with at most 2^32 - 21 payload bytes. |
| RpcCodec.DecodedAppend | rpc/rpc.go:117-159 | Every entry that comes out of the decoder fits the WAL's record format. |
| RpcCodec.NeverPanics | wal/wal.go:49-68 | No bytes crash the decoder: a payload length that would wrap round needs a buffer longer than the frame length can ask for. |
| RpcCodec.DecodeAppendEntriesArgs | rpc/rpc.go:117-159 | The decoding loop with its short reads is the decoding function, the error for every input included. |
| RpcCodec.EncodeAppendEntriesArgs | rpc/rpc.go:79-115 | The encoding loop writes the header and one frame per entry. |
| RpcCodec.InstallRoundTrip | rpc/rpc.go:190-252 | Decoding the encoding of an InstallSnapshot gives it back if and only if its payload is shorter than 2^32 bytes. |
| RpcCodec.TornInstall | rpc/rpc.go:220-252 | An InstallSnapshot cut short is an error. |
| RpcCodec.DecodeInstallSnapshotArgs | rpc/rpc.go:220-252 | The reader's field-by-field decoding is the decoding function. |
| RpcCodec.SnapshotArrives | raft/raft.go:530-541 | A snapshot encoded, sent and decoded twice over is the snapshot that was taken. |
| StateMachines.SetCommandStores | raft/raft.go:46-61 | "set k=v" stores exactly v under k in every map if and only if k=v has no white space and k no equals sign. |
| Commands.CommandMeaning | raft/raft.go:46-61 | A command changes the map only if it is two words with white space between and around them, the first "set", the second with an equals sign; then it stores what follows the first equals sign under what precedes it. Every other byte string leaves every map alone. |
| Commands.FieldsAreWords | raft/raft.go:50 | The fields are the words of the text: maximal runs without white space, all of them, in order. |
| Commands.SpaceWidthMeaning | raft/raft.go:50 | White space is found where the UTF-8 encoding of a Unicode space begins, and nowhere else. |
| StateMachines.StateMachine.Apply | raft/raft.go:46-61 | The method changes the map as the command function says. |

## Left out

- Restarts, stale replies and compaction in the cluster: the code does not support them (see the assumptions above).
- Availability.EnoughCanWrite: says that there is a way on, not that timers and the network take it.
- CatchingUp.NewLeaderCatchesUp: the follower takes no snapshots while it catches up, and both logs start at index 1.
- 64-bit wrap-around of terms and indices: they are unbounded numbers in the nodes, and what the 8-byte fields of the formats keep of them is explicit.
- Rafts.Raft.HandleAppendEntries: write errors of the disk are not modelled in the class, but are in the cluster's steps.
- Rafts.NewRaft: requires the state machine it is given to be empty, as cmd/server/main.go makes it.
- Servers.StoreKeepsAgreement: a conflict at or below lastApplied and one at the first index held are excluded; `Servers.AppliedSurvives` and `Servers.ConflictRecovers` say exactly what happens there.
- Lifetimes.LifeIsRecoverable: messages are contiguous, fit the record format, and conflict as above; an installed snapshot lies at or above lastApplied and above every WAL record; nothing is appended behind a torn record at the end of the WAL; a compaction finds its leftover clear; SaveSnapshot is one atomic write, although the code truncates the file in place (raft/snapshot.go:104).
- Appends after a torn record at the end of the WAL: the torn bytes stay in the file. `Leftovers.AppendBehindTorn` says exactly when such a record can still be read, and the methods of the class say what bytes are written; lives do not contain such an append.
- Leftovers.CompactionRecovers: the torn part of the leftover is shorter than a record header or belongs to a record up to the compaction index, which is what a life leaves (`Lifetimes.LifeIsSound`).
- sendSnapshotToPeer: its reply handling, which sets nextIndex and matchIndex to the snapshot's index, and a leader that installs its own snapshot.
- Strict-prefix rejection for AppendEntries bytes: the decoder accepts short reads.
- ConflictTerm: always 0 and never read.
- leaderGeneration, timers, goroutine scheduling, mutexes and random timeouts: replaced by atomic steps in any order.
- A cluster of one node: votes are counted only when a reply arrives, so it never elects a leader; nothing is claimed about it beyond safety.
- sort.Slice: a sorting function that is proved to sort; which algorithm sorts is not modelled.
- The internals of CRC-32, TCP framing and dialling, HTTP handlers, process start-up, and the fixed-size RPC structs.
- Linearizable reads, membership changes and how soon elections succeed: not implemented, or a matter of timing.
