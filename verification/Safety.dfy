/** The Raft guarantees over every run of the cluster. */
module Safety {
  import opened Common
  import opened StateMachines
  import opened Quorums
  import opened RaftNode
  import opened Handlers
  import opened Replication
  import opened Clusters
  import opened Invariants
  import opened Growth
  import opened Elections
  import opened Leadership
  import opened Delivery

  lemma StartInv(peers: set<nat>)
    ensures Inv(Start(peers))
  {
    var s := Start(peers);
    assert s.nodes.Keys == peers;
    forall i | i in s.nodes
      ensures NodeShape(s.nodes.Keys, i, s.nodes[i]) && LogOk(map[], s.nodes[i]) && LeaderOk(map[], i, s.nodes[i])
      ensures NodeCommits(s.nodes.Keys, s.nodes[i], map[], map[]) && BookkeepingOk(s.nodes.Keys, s.nodes[i], map[])
      ensures VoteOk(map[], i, s.nodes[i]) && CandidateOk(s.nodes.Keys, map[], map[], map[], i, s.nodes[i])
    {
    }
  }

  /** Every step keeps the invariant. */
  lemma StepKeepsInv(s: Cluster, step: Step)
    requires Inv(s) && Enabled(s, step)
    ensures Inv(Do(s, step))
  {
    match step
    case Timeout(i) => TimeoutKeepsInv(s, i);
    case AnswerVote(k) => AnswerVoteKeepsInv(s, k);
    case CountVote(k) => CountVoteKeepsInv(s, k);
    case LosePoll(k) => LosePollKeepsInv(s, k);
    case ClientProposal(i, data) => ProposeKeepsInv(s, i, data);
    case Tick(i) => TickKeepsInv(s, i);
    case DeliverAppend(p, truncOk, appendOk) => DeliverAppendKeepsInv(s, p, truncOk, appendOk);
    case DeliverAnswer(a) => DeliverAnswerKeepsInv(s, a);
  }

  lemma {:induction false} RunKeepsInv(r: Run, k: nat)
    requires IsRun(r) && k < |r.states|
    ensures Inv(r.states[k]) && r.states[k].nodes.Keys == r.peers
  {
    if k == 0 {
      StartInv(r.peers);
    } else {
      RunKeepsInv(r, k - 1);
      StepKeepsInv(r.states[k - 1], r.steps[k - 1]);
    }
  }

  // ---- What later states remember ----

  /** Terms keep their leaders, leaders' logs grow, confirmations stay. */
  ghost predicate Remembers(s: Cluster, s': Cluster) {
    Grows(s.past.reigns, s'.past.reigns) && AcksGrow(s.past.acks, s'.past.acks)
  }

  lemma WinRemembers(s: Cluster, k: PollKey)
    requires Inv(s) && Enabled(s, CountVote(k))
    ensures Remembers(s, DoCountVote(s, k))
  {
    var i := k.candidate;
    var h, h' := s.past, DoCountVote(s, k).past;
    var n0, n := s.nodes[i], HandleVoteReply(s.nodes[i], s.polls[k].reply);
    GrowsRefl(h.reigns);
    if n.role == Leader {
      assert NodeShape(s.nodes.Keys, i, n0) && CandidateOk(s.nodes.Keys, h.ballots, s.polls, h.counted, i, n0);
      assert PollOk(s.nodes, h.ballots, k, s.polls[k]) && LogOk(h.reigns, n0);
      assert |h.counted[i] + {k.peer}| == |h.counted[i]| + 1;
      TermIsNew(s.nodes, h.reigns, h.ballots, i, h.counted[i] + {k.peer});
      AckedInReign(s.nodes, h.reigns, h.acks, i, n.term);
      forall t | t in h.reigns ensures GrowsAt(h.reigns, h'.reigns, t) { assert GrowsAt(h.reigns, h.reigns, t); }
    }
  }

  lemma StepRemembers(s: Cluster, step: Step)
    requires Inv(s) && Enabled(s, step)
    ensures Remembers(s, Do(s, step))
  {
    var h := s.past;
    GrowsRefl(h.reigns);
    match step
    case CountVote(k) => WinRemembers(s, k);
    case ClientProposal(i, data) =>
      var n0 := s.nodes[i];
      assert LeaderOk(h.reigns, i, n0) && OwnAck(h.reigns, h.acks, n0.term);
      forall t | t in h.reigns ensures GrowsAt(h.reigns, DoPropose(s, i, data).past.reigns, t) {
        assert GrowsAt(h.reigns, h.reigns, t);
        assert (n0.log + [Proposal(n0, data)])[..|n0.log|] == n0.log;
      }
    case _ =>
  }

  lemma RemembersTransitive(a: Cluster, b: Cluster, c: Cluster)
    requires Remembers(a, b) && Remembers(b, c)
    ensures Remembers(a, c)
  {
    GrowsTransitive(a.past.reigns, b.past.reigns, c.past.reigns);
    forall q, T ensures Acked(a.past.acks, q, T) <= Acked(c.past.acks, q, T) {
      assert Acked(b.past.acks, q, T) <= Acked(c.past.acks, q, T);
    }
  }

  lemma {:induction false} RunRemembers(r: Run, j: nat, k: nat)
    requires IsRun(r) && j <= k < |r.states|
    ensures Remembers(r.states[j], r.states[k])
    decreases k - j
  {
    if j == k {
      GrowsRefl(r.states[j].past.reigns);
    } else {
      RunRemembers(r, j, k - 1);
      RunKeepsInv(r, k - 1);
      StepRemembers(r.states[k - 1], r.steps[k - 1]);
      RemembersTransitive(r.states[j], r.states[k - 1], r.states[k]);
    }
  }

  // ---- Election safety ----

  /** At most one node ever leads a given term. */
  lemma ElectionSafety(r: Run, j: nat, k: nat, a: nat, b: nat)
    requires IsRun(r) && j <= k < |r.states|
    requires a in r.states[j].nodes && r.states[j].nodes[a].role == Leader
    requires b in r.states[k].nodes && r.states[k].nodes[b].role == Leader
    requires r.states[j].nodes[a].term == r.states[k].nodes[b].term
    ensures a == b
  {
    RunKeepsInv(r, j);
    RunKeepsInv(r, k);
    RunRemembers(r, j, k);
    var t := r.states[j].nodes[a].term;
    assert LeaderOk(r.states[j].past.reigns, a, r.states[j].nodes[a]);
    assert LeaderOk(r.states[k].past.reigns, b, r.states[k].nodes[b]);
    assert GrowsAt(r.states[j].past.reigns, r.states[k].past.reigns, t);
  }

  // ---- Log matching ----

  /** Two logs, at any two moments, that hold an entry with the same index and term are identical through
      that index. */
  lemma LogMatching(r: Run, j: nat, k: nat, a: nat, b: nat)
    requires IsRun(r) && j <= k < |r.states|
    requires a in r.states[j].nodes && b in r.states[k].nodes
    ensures LogMatch(r.states[j].nodes[a].log, r.states[k].nodes[b].log)
    ensures Contiguous(r.states[j].nodes[a].log, 0) && Contiguous(r.states[k].nodes[b].log, 0)
  {
    RunKeepsInv(r, j);
    RunKeepsInv(r, k);
    RunRemembers(r, j, k);
    var R, R' := r.states[j].past.reigns, r.states[k].past.reigns;
    assert LogOk(R, r.states[j].nodes[a]) && LogOk(R', r.states[k].nodes[b]);
    JustifiedGrows(R, R', r.states[j].nodes[a].log);
    JustifiedMatch(R', r.states[j].nodes[a].log, r.states[k].nodes[b].log);
    JustifiedLog(R', r.states[j].nodes[a].log);
    JustifiedLog(R', r.states[k].nodes[b].log);
  }

  /** The same for a log and an AppendEntries in flight: agreement on the term of one of its entries means
      the log holds everything before that entry too. */
  lemma LogMatchesMessage(s: Cluster, i: nat, p: Parcel, k: nat)
    requires Inv(s) && i in s.nodes && p in s.parcels
    requires k < |p.args.entries| && p.args.prevIndex + k < |s.nodes[i].log|
    requires s.nodes[i].log[p.args.prevIndex + k].term == p.args.entries[k].term
    ensures s.nodes[i].log[p.args.prevIndex..p.args.prevIndex + k + 1] == p.args.entries[..k + 1]
    ensures p.args.prevIndex > 0 ==> s.nodes[i].log[p.args.prevIndex - 1].term == p.args.prevTerm
  {
    var R, a, log := s.past.reigns, p.args, s.nodes[i].log;
    assert ParcelOk(s.nodes.Keys, R, s.past.acks, p) && LogOk(R, s.nodes[i]) && ReignOk(R, a.term);
    var lead := R[a.term].log;
    JustifiedMatch(R, log, lead);
    var e := a.prevIndex + k;
    assert a.entries[k] == lead[e];
    assert log[..e + 1] == lead[..e + 1];
    assert log[a.prevIndex..e + 1] == log[..e + 1][a.prevIndex..];
    assert lead[..e + 1][a.prevIndex..] == lead[a.prevIndex..e + 1];
    assert a.entries[..k + 1] == lead[a.prevIndex..e + 1];
    if a.prevIndex > 0 { AgreeAtPosition(log, lead, e + 1, a.prevIndex - 1); }
  }

  lemma LogMatchingInFlight(r: Run, j: nat, i: nat, p: Parcel, k: nat)
    requires IsRun(r) && j < |r.states| && i in r.states[j].nodes && p in r.states[j].parcels
    requires k < |p.args.entries| && p.args.prevIndex + k < |r.states[j].nodes[i].log|
    requires r.states[j].nodes[i].log[p.args.prevIndex + k].term == p.args.entries[k].term
    ensures r.states[j].nodes[i].log[p.args.prevIndex..p.args.prevIndex + k + 1] == p.args.entries[..k + 1]
    ensures p.args.prevIndex > 0 ==> r.states[j].nodes[i].log[p.args.prevIndex - 1].term == p.args.prevTerm
  {
    RunKeepsInv(r, j);
    LogMatchesMessage(r.states[j], i, p, k);
  }

  // ---- Leader completeness ----

  /** Whatever a node has committed or applied at some moment stays committed. */
  lemma StillCommitted(r: Run, j: nat, k: nat, a: nat, m: nat)
    requires IsRun(r) && j <= k < |r.states| && a in r.states[j].nodes
    requires m <= r.states[j].nodes[a].commit || m <= r.states[j].nodes[a].applied
    ensures m <= |r.states[j].nodes[a].log|
    ensures Committed(r.peers, r.states[k].past.reigns, r.states[k].past.acks,
                      r.states[j].nodes[a].log[..m], r.states[j].nodes[a].term)
  {
    RunKeepsInv(r, j);
    RunRemembers(r, j, k);
    var s, s', n := r.states[j], r.states[k], r.states[j].nodes[a];
    assert NodeCommits(s.nodes.Keys, n, s.past.reigns, s.past.acks);
    var c := if m <= n.commit then n.commit else n.applied;
    CommittedShorter(r.peers, s.past.reigns, s.past.acks, n.log[..c], m, n.term, n.term);
    assert n.log[..c][..m] == n.log[..m];
    CommittedGrows(r.peers, s.past.reigns, s'.past.reigns, s.past.acks, s'.past.acks, n.log[..m], n.term, n.term);
  }

  /** Once a node holds m entries as committed, every leader of that or a later term, then and ever after,
      holds exactly the same m entries. */
  lemma CommittedEntriesInLaterLeaders(r: Run, j: nat, k: nat, a: nat, b: nat, m: nat)
    requires IsRun(r) && j <= k < |r.states| && a in r.states[j].nodes && b in r.states[k].nodes
    requires m <= r.states[j].nodes[a].commit || m <= r.states[j].nodes[a].applied
    requires r.states[k].nodes[b].role == Leader && r.states[k].nodes[b].term >= r.states[j].nodes[a].term
    ensures Agree(r.states[j].nodes[a].log, r.states[k].nodes[b].log, m)
  {
    RunKeepsInv(r, k);
    StillCommitted(r, j, k, a, m);
    var s', n, lead := r.states[k], r.states[j].nodes[a], r.states[k].nodes[b];
    assert LeaderOk(s'.past.reigns, b, lead);
    CommittedInLaterLeader(r.peers, s'.past.reigns, s'.past.ballots, s'.past.acks, n.log[..m], n.term, lead.term);
    assert n.log[..m][..m] == n.log[..m];
  }

  /** Leader completeness for the commit rule itself: the step that commits index m in term T. */
  lemma LeaderCompletenessOverRuns(r: Run, j: nat, k: nat, answer: Answer, b: nat)
    requires IsRun(r) && j < k < |r.states| && r.steps[j] == DeliverAnswer(answer)
    requires b in r.states[k].nodes && r.states[k].nodes[b].role == Leader
    requires r.states[k].nodes[b].term > answer.parcel.args.term
    ensures answer.parcel.args.leader in r.states[j + 1].nodes
    ensures var c := r.states[j + 1].nodes[answer.parcel.args.leader];
      c.role == Leader ==> Agree(c.log, r.states[k].nodes[b].log, c.commit)
  {
    var i := answer.parcel.args.leader;
    assert Enabled(r.states[j], r.steps[j]) && r.states[j + 1] == Do(r.states[j], r.steps[j]);
    var c := r.states[j + 1].nodes[i];
    if c.role == Leader {
      RunKeepsInv(r, j);
      RunKeepsInv(r, j + 1);
      LeaderKeepsTerm(r.states[j], answer);
      CommittedEntriesInLaterLeaders(r, j + 1, k, i, b, c.commit);
    }
  }

  lemma LeaderKeepsTerm(s: Cluster, a: Answer)
    requires Enabled(s, DeliverAnswer(a))
    requires DoDeliverAnswer(s, a).nodes[a.parcel.args.leader].role == Leader
    ensures DoDeliverAnswer(s, a).nodes[a.parcel.args.leader].term == a.parcel.args.term
  {
    var n := s.nodes[a.parcel.args.leader];
    var m := RecordReply(n, a.parcel.to, a.parcel.args, a.reply);
    CatchUpFrame(m.(commit := MajorityPick(m.matched, m.LastIndex())));
  }

  // ---- State machine safety ----

  /** If two nodes, at any two moments, have both applied index i, they applied the same entry there. */
  lemma StateMachineSafety(r: Run, j: nat, k: nat, a: nat, b: nat, i: nat)
    requires IsRun(r) && j <= k < |r.states| && a in r.states[j].nodes && b in r.states[k].nodes
    requires 0 < i <= r.states[j].nodes[a].applied && i <= r.states[k].nodes[b].applied
    ensures i <= |r.states[j].nodes[a].log| && i <= |r.states[k].nodes[b].log|
    ensures r.states[j].nodes[a].log[i - 1] == r.states[k].nodes[b].log[i - 1]
  {
    RunKeepsInv(r, k);
    StillCommitted(r, j, k, a, i);
    StillCommitted(r, k, k, b, i);
    var s', n, n' := r.states[k], r.states[j].nodes[a], r.states[k].nodes[b];
    CommittedComparable(r.peers, s'.past.reigns, s'.past.ballots, s'.past.acks,
                        n.log[..i], n.term, n'.log[..i], n'.term);
    assert n.log[..i][i - 1] == n'.log[..i][i - 1];
  }

  /** Nodes that have applied equally far hold the same map, and that map is the replay of their logs. */
  lemma SameAppliedSameMap(r: Run, j: nat, k: nat, a: nat, b: nat)
    requires IsRun(r) && j <= k < |r.states| && a in r.states[j].nodes && b in r.states[k].nodes
    requires r.states[j].nodes[a].applied == r.states[k].nodes[b].applied
    ensures r.states[j].nodes[a].kv == r.states[k].nodes[b].kv
    ensures r.states[j].nodes[a].applied <= |r.states[j].nodes[a].log|
    ensures r.states[j].nodes[a].kv == Replay(map[], r.states[j].nodes[a].log[..r.states[j].nodes[a].applied])
  {
    RunKeepsInv(r, j);
    RunKeepsInv(r, k);
    var s, s', n, n' := r.states[j], r.states[k], r.states[j].nodes[a], r.states[k].nodes[b];
    assert NodeCommits(s.nodes.Keys, n, s.past.reigns, s.past.acks);
    assert NodeCommits(s'.nodes.Keys, n', s'.past.reigns, s'.past.acks);
    forall i | 0 <= i < n.applied ensures n.log[i] == n'.log[i] { StateMachineSafety(r, j, k, a, b, i + 1); }
    assert n.log[..n.applied] == n'.log[..n'.applied];
  }

  /** Only a node in term T confirms entries of term T. */
  lemma AcksAreOwn(s: Cluster, step: Step, q: nat, T: nat)
    requires Inv(s) && Enabled(s, step)
    requires Acked(Do(s, step).past.acks, q, T) > Acked(s.past.acks, q, T)
    ensures q in Do(s, step).nodes && Do(s, step).nodes[q].term == T
  {
    match step
    case DeliverAppend(p, truncOk, appendOk) => DeliveredTerm(s.nodes[p.to], p.args, truncOk, appendOk);
    case _ =>
  }

  lemma DeliveredTerm(n: Node, a: AppendArgs, truncOk: bool, appendOk: bool)
    ensures HandleAppend(n, a, truncOk, appendOk).1.success ==> HandleAppend(n, a, truncOk, appendOk).0.term == a.term
  {
    var m := Acknowledge(n, a);
    var merged := m.(log := Cut(m, a.entries).log + Rest(m, a.entries));
    CatchUpFrame(FollowCommit(merged, a.leaderCommit));
  }

  /** Behind every confirmation there is a moment at which the node, in that term, held the entries. */
  lemma {:induction false} AckMoment(r: Run, k: nat, q: nat, T: nat, m: nat) returns (j: nat)
    requires IsRun(r) && k < |r.states| && 0 < m <= Acked(r.states[k].past.acks, q, T)
    ensures j <= k && q in r.states[j].nodes && r.states[j].nodes[q].term == T
    ensures T in r.states[k].past.reigns && Agree(r.states[j].nodes[q].log, r.states[k].past.reigns[T].log, m)
  {
    RunKeepsInv(r, k);
    var s := r.states[k];
    if k > 0 && m <= Acked(r.states[k - 1].past.acks, q, T) {
      j := AckMoment(r, k - 1, q, T, m);
      RunRemembers(r, k - 1, k);
      assert GrowsAt(r.states[k - 1].past.reigns, s.past.reigns, T);
      AgreeWithLonger(r.states[j].nodes[q].log, r.states[k - 1].past.reigns[T].log, s.past.reigns[T].log, m);
    } else {
      j := k;
      RunKeepsInv(r, k - 1);
      AcksAreOwn(r.states[k - 1], r.steps[k - 1], q, T);
      assert AckOk(s.nodes, s.past.reigns, s.past.acks, Seat(q, T));
      assert Retains(s.past.reigns, s.past.acks, q, s.nodes[q].log, T, s.nodes[q].term);
      assert Kept(s.past.reigns, s.nodes[q].log, T, m, T);
    }
  }

  lemma AgreeWithLonger(log: seq<Entry>, a: seq<Entry>, b: seq<Entry>, m: nat)
    requires Agree(log, a, m) && |a| <= |b| && b[..|a|] == a
    ensures Agree(log, b, m)
  {
    assert b[..m] == b[..|a|][..m];
  }

  /** At some moment up to k, the node was in term T and its log began with the prefix. */
  ghost predicate Confirmed(r: Run, k: nat, q: nat, T: nat, prefix: seq<Entry>)
    requires k < |r.states|
  {
    exists j :: 0 <= j <= k && HeldAt(r.states[j], q, T, prefix)
  }

  ghost predicate HeldAt(s: Cluster, q: nat, T: nat, prefix: seq<Entry>) {
    q in s.nodes && s.nodes[q].term == T && prefix <= s.nodes[q].log
  }

  /** A committed prefix is behind a majority of distinct nodes, each of which, in one and the same term, held
      it; those still in that term hold it now. */
  lemma CommittedByMajority(r: Run, k: nat, a: nat) returns (T: nat, Q: set<nat>)
    requires IsRun(r) && k < |r.states| && a in r.states[k].nodes && r.states[k].nodes[a].commit > 0
    ensures T <= r.states[k].nodes[a].term && IsQuorum(r.peers, Q) && Q <= r.states[k].nodes.Keys
    ensures r.states[k].nodes[a].commit <= |r.states[k].nodes[a].log|
    ensures var prefix := r.states[k].nodes[a].log[..r.states[k].nodes[a].commit];
      forall q :: q in Q ==>
        && Confirmed(r, k, q, T, prefix)
        && (r.states[k].nodes[q].term == T ==> prefix <= r.states[k].nodes[q].log)
  {
    RunKeepsInv(r, k);
    var s := r.states[k];
    var h, n := s.past, s.nodes[a];
    assert NodeCommits(s.nodes.Keys, n, h.reigns, h.acks);
    var prefix := n.log[..n.commit];
    var m;
    T, m := CommittedWitness(r.peers, h.reigns, h.acks, prefix, n.term);
    Q :| IsQuorum(r.peers, Q) && AllAcked(h.acks, Q, T, m);
    forall q | q in Q
      ensures Confirmed(r, k, q, T, prefix) && (s.nodes[q].term == T ==> prefix <= s.nodes[q].log)
    {
      var j := AckMoment(r, k, q, T, m);
      PrefixHeld(prefix, h.reigns[T].log, r.states[j].nodes[q].log, m);
      assert HeldAt(r.states[j], q, T, prefix);
      if s.nodes[q].term == T {
        assert Retains(h.reigns, h.acks, q, s.nodes[q].log, T, s.nodes[q].term);
        assert Kept(h.reigns, s.nodes[q].log, T, m, T);
        PrefixHeld(prefix, h.reigns[T].log, s.nodes[q].log, m);
      }
    }
  }

  lemma PrefixHeld(prefix: seq<Entry>, lead: seq<Entry>, log: seq<Entry>, m: nat)
    requires |prefix| <= m && Agree(log, lead, m) && prefix == lead[..|prefix|]
    ensures prefix <= log
  {
    assert log[..m][..|prefix|] == lead[..m][..|prefix|];
  }

  // ---- Follower commits ----

  /** Every AppendEntries in flight carries a commit index inside what it covers, and an empty one reaches,
      while it is not stale, only a follower that holds the entry before it. */
  lemma MessagesAreSound(r: Run, k: nat, p: Parcel)
    requires IsRun(r) && k < |r.states| && p in r.states[k].parcels
    ensures p.args.leaderCommit <= p.args.prevIndex + |p.args.entries|
    ensures p.to in r.states[k].nodes
    ensures p.args.entries == [] && p.args.prevIndex > 0 && r.states[k].nodes[p.to].term <= p.args.term ==>
      r.states[k].nodes[p.to].term == p.args.term
      && p.args.prevIndex <= |r.states[k].nodes[p.to].log|
      && r.states[k].nodes[p.to].log[p.args.prevIndex - 1].term == p.args.prevTerm
  {
    RunKeepsInv(r, k);
    var s := r.states[k];
    assert ParcelOk(s.nodes.Keys, s.past.reigns, s.past.acks, p);
    if p.args.entries == [] && p.args.prevIndex > 0 && s.nodes[p.to].term <= p.args.term {
      EmptyMessageMatches(s.nodes, s.past.reigns, s.past.acks, p);
      AgreeAtPosition(s.nodes[p.to].log, s.past.reigns[p.args.term].log, p.args.prevIndex, p.args.prevIndex - 1);
    }
  }

  /** Every AppendEntries in flight was built by some tick, from the log its leader had then. */
  lemma {:induction false} ParcelOrigin(r: Run, k: nat, p: Parcel) returns (j: nat)
    requires IsRun(r) && k < |r.states| && p in r.states[k].parcels
    ensures j < k && r.steps[j] == Tick(p.args.leader) && p.args.leader in r.states[j].nodes
    ensures var n := r.states[j].nodes[p.args.leader];
      n.role == Leader && n.term == p.args.term && PeerMessage(n, p.to) == Some(p.args)
  {
    var s := r.states[k - 1];
    if p in s.parcels {
      j := ParcelOrigin(r, k - 1, p);
    } else {
      j := k - 1;
      RunKeepsInv(r, j);
      var i := r.steps[j].node;
      assert NodeShape(s.nodes.Keys, i, s.nodes[i]);
    }
  }

  /** When a delivery moves a follower's commit index, it moves to the message's, and the follower's log
      agrees up to there with the log the leader had when it sent the message. */
  lemma FollowerCommitSoundness(r: Run, k: nat, p: Parcel, truncOk: bool, appendOk: bool) returns (j: nat)
    requires IsRun(r) && k < |r.steps| && r.steps[k] == DeliverAppend(p, truncOk, appendOk)
    requires p.to in r.states[k].nodes && p.to in r.states[k + 1].nodes
    requires r.states[k + 1].nodes[p.to].commit != r.states[k].nodes[p.to].commit
    ensures r.states[k + 1].nodes[p.to].commit == p.args.leaderCommit
    ensures j < k && r.steps[j] == Tick(p.args.leader) && p.args.leader in r.states[j].nodes
    ensures PeerMessage(r.states[j].nodes[p.args.leader], p.to) == Some(p.args)
    ensures Agree(r.states[k + 1].nodes[p.to].log, r.states[j].nodes[p.args.leader].log, p.args.leaderCommit)
  {
    RunKeepsInv(r, k);
    var s := r.states[k];
    var R := s.past.reigns;
    assert r.states[k + 1] == Do(s, r.steps[k]) && Enabled(s, r.steps[k]);
    assert ParcelOk(s.nodes.Keys, R, s.past.acks, p);
    var n0 := s.nodes[p.to];
    var (n, reply) := HandleAppend(n0, p.args, truncOk, appendOk);
    assert n0.term <= p.args.term;
    FreshDelivery(s.nodes, R, s.past.acks, p, truncOk, appendOk);
    if p.args.entries == [] { EmptyMessageMatches(s.nodes, R, s.past.acks, p); }
    FollowedCommit(Acknowledge(n0, p.args), p.args, R[p.args.term].log, n, reply);
    j := ParcelOrigin(r, k, p);
    AgreesWithSender(r, j, k, p, n.log);
  }

  lemma AgreesWithSender(r: Run, j: nat, k: nat, p: Parcel, log: seq<Entry>)
    requires IsRun(r) && j <= k < |r.states| && p.args.leader in r.states[j].nodes
    requires var n := r.states[j].nodes[p.args.leader];
      n.role == Leader && n.term == p.args.term && PeerMessage(n, p.to) == Some(p.args)
    requires p.args.term in r.states[k].past.reigns && p.args.leaderCommit <= p.args.prevIndex + |p.args.entries|
    requires Agree(log, r.states[k].past.reigns[p.args.term].log, p.args.leaderCommit)
    ensures Agree(log, r.states[j].nodes[p.args.leader].log, p.args.leaderCommit)
  {
    RunKeepsInv(r, j);
    RunRemembers(r, j, k);
    var R, R', lead := r.states[j].past.reigns, r.states[k].past.reigns, r.states[j].nodes[p.args.leader];
    assert LeaderOk(R, p.args.leader, lead) && NodeShape(r.states[j].nodes.Keys, p.args.leader, lead);
    assert GrowsAt(R, R', p.args.term);
    AgreeWithShorter(log, lead.log, R'[p.args.term].log, p.args.leaderCommit);
  }

  lemma AgreeWithShorter(log: seq<Entry>, a: seq<Entry>, b: seq<Entry>, m: nat)
    requires Agree(log, b, m) && m <= |a| <= |b| && b[..|a|] == a
    ensures Agree(log, a, m)
  {
    assert b[..m] == b[..|a|][..m];
  }

  // ---- nextIndex ----

  /** A leader's nextIndex for every peer, itself included, points into its log or just behind it, so the
      tail slice a tick takes is always in bounds. */
  lemma NextIndexInRange(r: Run, k: nat, i: nat, p: nat)
    requires IsRun(r) && k < |r.states| && i in r.states[k].nodes && p in r.states[k].nodes
    requires r.states[k].nodes[i].role == Leader
    ensures p in r.states[k].nodes[i].next
    ensures 1 <= r.states[k].nodes[i].next[p] <= r.states[k].nodes[i].LastIndex() + 1
    ensures PeerMessage(r.states[k].nodes[i], p).Some?
  {
    RunKeepsInv(r, k);
    var s := r.states[k];
    var n := s.nodes[i];
    assert BookkeepingOk(s.nodes.Keys, n, s.past.acks) && BookOk(n, s.past.acks, p);
    assert NodeShape(s.nodes.Keys, i, n) && LogOk(s.past.reigns, n);
    JustifiedLog(s.past.reigns, n.log);
    VoteClaim(n);
  }

  // ---- Heartbeats ----

  /** The message is what the leader n owes peer p: its term, name and commit index, and its log from nextIndex
      on behind the index and term of the entry before. */
  ghost predicate Owed(n: Node, p: nat, a: AppendArgs) {
    && p in n.next && 1 <= n.next[p] <= |n.log| + 1
    && a.term == n.term && a.leader == n.id && a.leaderCommit == n.commit
    && a.prevIndex == n.next[p] - 1 && a.entries == n.log[a.prevIndex..]
    && a.prevTerm == if a.prevIndex == 0 then 0 else n.log[a.prevIndex - 1].term
  }

  lemma OwedIsSent(n: Node, p: nat, a: AppendArgs)
    requires n.offset == 0 && p in n.next && 1 <= n.next[p] <= |n.log| + 1
    ensures PeerMessage(n, p) == Some(a) <==> Owed(n, p, a)
  {
    HeartbeatMeaning(n, p);
  }

  /** In every run a tick puts in flight, for every other node, exactly the message it is owed, and nothing
      else. */
  lemma TickSends(r: Run, k: nat, i: nat, q: Parcel)
    requires IsRun(r) && k < |r.steps| && r.steps[k] == Tick(i)
    ensures i in r.states[k].nodes
    ensures q in r.states[k + 1].parcels <==>
      || q in r.states[k].parcels
      || (q.to in r.peers && q.to != i && q.stamp == r.states[k].clock && Owed(r.states[k].nodes[i], q.to, q.args))
  {
    RunKeepsInv(r, k);
    var s := r.states[k];
    assert Enabled(s, r.steps[k]) && r.states[k + 1] == Do(s, r.steps[k]);
    var n := s.nodes[i];
    assert NodeShape(s.nodes.Keys, i, n);
    if q.to in r.peers {
      NextIndexInRange(r, k, i, q.to);
      assert LogOk(s.past.reigns, n);
      JustifiedLog(s.past.reigns, n.log);
      OwedIsSent(n, q.to, q.args);
    }
  }
}
