/** What compaction does to elections. A candidate with an empty log claims to have nothing, even behind a
    snapshot, so nodes that have all compacted their whole logs refuse one another for good. */
module Deadlocks {
  import opened Common
  import opened RaftNode
  import opened Handlers
  import opened WalFormat
  import opened Servers
  import opened Machines
  import opened Services
  import opened Clusters

  /** The node has a snapshot, no entry behind it, and does not lead. */
  predicate Compacted(n: Node) {
    n.log == [] && n.offset > 0 && n.role != Leader
  }

  /** No vote request claims anything and no reply grants anything. */
  predicate Hopeless(p: Poll) {
    match p
    case Asked(a) => a.lastIndex == 0 && a.lastTerm == 0
    case Answered(r) => !r.granted
  }

  /** Every node is compacted, no vote is on its way, and every AppendEntries still in flight is empty. */
  ghost predicate Stuck(s: Cluster) {
    && (forall i :: i in s.nodes ==> Compacted(s.nodes[i]))
    && (forall k :: k in s.polls ==> Hopeless(s.polls[k]))
    && (forall p :: p in s.parcels ==> p.args.entries == [])
  }

  lemma HeartbeatKeepsCompacted(n: Node, a: AppendArgs, truncOk: bool, appendOk: bool)
    requires Compacted(n) && a.entries == []
    ensures Compacted(HandleAppend(n, a, truncOk, appendOk).0)
  {
    if a.term >= n.term {
      var m := Acknowledge(n, a);
      MergeFrame(m, a, truncOk, appendOk);
      CatchUpFrame(FollowCommit(m.(log := m.log + []), a.leaderCommit));
    }
  }

  lemma RefusalKeepsStuck(s: Cluster, k: PollKey)
    requires Stuck(s) && Enabled(s, AnswerVote(k))
    ensures Stuck(DoAnswerVote(s, k))
  {
    VoteAnswer(s.nodes[k.peer], s.polls[k].args);
    assert Hopeless(s.polls[k]) && Compacted(s.nodes[k.peer]);
  }

  lemma CountKeepsStuck(s: Cluster, k: PollKey)
    requires Stuck(s) && Enabled(s, CountVote(k))
    ensures Stuck(DoCountVote(s, k))
  {
    assert Hopeless(s.polls[k]) && Compacted(s.nodes[k.candidate]);
  }

  /** No step leads out: no timeout, vote, heartbeat or loss ever makes a leader. */
  lemma StepKeepsStuck(s: Cluster, step: Step)
    requires Stuck(s) && Enabled(s, step)
    ensures Stuck(Do(s, step))
  {
    match step
    case Timeout(i) => RequestMeaning(BecomeCandidate(s.nodes[i]));
    case AnswerVote(k) => RefusalKeepsStuck(s, k);
    case CountVote(k) => CountKeepsStuck(s, k);
    case DeliverAppend(p, truncOk, appendOk) => HeartbeatKeepsCompacted(s.nodes[p.to], p.args, truncOk, appendOk);
    case _ =>
  }

  /** From there on nobody leads, however the run goes on. */
  lemma {:induction false} NobodyEverLeads(states: seq<Cluster>, steps: seq<Step>, k: nat, i: nat)
    requires |states| == |steps| + 1 && Stuck(states[0]) && k < |states|
    requires forall j :: 0 <= j < |steps| ==> Enabled(states[j], steps[j]) && states[j + 1] == Do(states[j], steps[j])
    requires i in states[k].nodes
    ensures states[k].nodes[i].role != Leader && states[k].nodes[i].log == []
  {
    StuckAt(states, steps, k);
  }

  lemma {:induction false} StuckAt(states: seq<Cluster>, steps: seq<Step>, k: nat)
    requires |states| == |steps| + 1 && Stuck(states[0]) && k < |states|
    requires forall j :: 0 <= j < |steps| ==> Enabled(states[j], steps[j]) && states[j + 1] == Do(states[j], steps[j])
    ensures Stuck(states[k])
  {
    if k > 0 {
      StuckAt(states, steps, k - 1);
      StepKeepsStuck(states[k - 1], steps[k - 1]);
    }
  }

  /** Every node gets there by applying its whole log when a snapshot is due. */
  lemma SnapshotCompacts(crc: Checksum, m: Machine)
    requires DueSnapshot(m.node).Some? && m.node.applied == m.node.offset + |m.node.log| && m.node.role != Leader
    ensures Compacted(MaybeSnapshot(crc, m).node)
  {
    SnapshotOfAll(crc, m);
    SnapshotFields(crc, m);
  }

  /** The leader gets there with a restart, and a restart leads no node out again. */
  lemma RestartCompacts(crc: Checksum, m: Machine, history: seq<Entry>)
    requires Agrees(View(crc, m), history) && m.node.log == [] && m.node.offset > 0
    ensures Compacted(Restarted(crc, m, m.files).node)
  {
    RestartAgrees(View(crc, m), history);
    RestartForgets(crc, m, m.files);
  }
}
