/** The commit index never moves back, when each peer's replies are handled in the order of the requests. */
module CommitOrder {
  import opened Common
  import opened Quorums
  import opened RaftNode
  import opened Replication
  import opened Clusters
  import opened Invariants
  import opened Growth
  import opened Elections
  import opened Leadership
  import opened Delivery
  import opened Safety

  /** No reply is handled after a reply to a later request to the same peer in the same term. */
  ghost predicate InOrder(s: Cluster, step: Step) {
    step.DeliverAnswer? ==>
      var p := step.answer.parcel;
      var key := PollKey(p.args.leader, p.args.term, p.to);
      key in s.past.seen ==> s.past.seen[key] <= p.stamp
  }

  ghost predicate IsOrderedRun(r: Run) {
    IsRun(r) && forall k :: 0 <= k < |r.steps| ==> InOrder(r.states[k], r.steps[k])
  }

  /** The last index a message covers. */
  function Reach(p: Parcel): nat {
    p.args.prevIndex + |p.args.entries|
  }

  /** Later ticks of a term reach at least as far. */
  ghost predicate StampsOk(parcels: set<Parcel>, clock: nat) {
    && (forall p :: p in parcels ==> p.stamp < clock)
    && (forall p, q :: p in parcels && q in parcels && p.args.term == q.args.term && p.stamp <= q.stamp ==>
          Reach(p) <= Reach(q))
  }

  ghost predicate SeenOk(seen: map<PollKey, nat>, reigns: Reigns) {
    forall key :: key in seen ==> key.term in reigns
  }

  /** What a leader has recorded for a peer is covered by every message sent since. */
  ghost predicate PeerInOrder(n: Node, seen: map<PollKey, nat>, p: Parcel) {
    var key := PollKey(n.id, n.term, p.to);
    p.args.term == n.term && key in seen && seen[key] <= p.stamp ==> Slot(n.matched, p.to) <= Reach(p)
  }

  /** Nothing is recorded for a peer that has not replied in this term. */
  ghost predicate UnseenIsZero(n: Node, seen: map<PollKey, nat>) {
    forall q {:trigger Slot(n.matched, q)} :: PollKey(n.id, n.term, q) !in seen ==> Slot(n.matched, q) == 0
  }

  /** A leader's commit index is from before its election, or at most what the commit rule picks now. */
  ghost predicate CommitPicked(n: Node, reigns: Reigns) {
    n.term in reigns && (n.commit <= reigns[n.term].start || n.commit <= MajorityPick(n.matched, |n.log|))
  }

  ghost predicate LeaderInOrder(n: Node, parcels: set<Parcel>, seen: map<PollKey, nat>, reigns: Reigns) {
    n.role == Leader ==>
      && (forall p {:trigger PeerInOrder(n, seen, p)} :: p in parcels ==> PeerInOrder(n, seen, p))
      && UnseenIsZero(n, seen) && CommitPicked(n, reigns)
  }

  ghost predicate OrderInv(s: Cluster) {
    && StampsOk(s.parcels, s.clock) && SeenOk(s.past.seen, s.past.reigns)
    && forall i {:trigger LeaderInOrder(s.nodes[i], s.parcels, s.past.seen, s.past.reigns)} ::
         i in s.nodes ==> LeaderInOrder(s.nodes[i], s.parcels, s.past.seen, s.past.reigns)
  }

  /** Nothing changes for a node whose log, commit index and bookkeeping stay, while reigns grow. */
  lemma StaysInOrder(n: Node, n': Node, parcels: set<Parcel>, seen: map<PollKey, nat>, reigns: Reigns, reigns': Reigns)
    requires LeaderInOrder(n, parcels, seen, reigns) && Grows(reigns, reigns')
    requires n'.role == Leader ==> n.role == Leader && n'.id == n.id && n'.term == n.term && n'.log == n.log
                                   && n'.matched == n.matched && n'.commit == n.commit
    ensures LeaderInOrder(n', parcels, seen, reigns')
  {
    if n'.role == Leader {
      forall p | p in parcels ensures PeerInOrder(n', seen, p) { assert PeerInOrder(n, seen, p); }
      forall q | PollKey(n.id, n.term, q) !in seen ensures Slot(n'.matched, q) == 0 { assert Slot(n.matched, q) == 0; }
      assert GrowsAt(reigns, reigns', n.term);
    }
  }

  lemma SeenGrows(seen: map<PollKey, nat>, reigns: Reigns, reigns': Reigns)
    requires SeenOk(seen, reigns) && Grows(reigns, reigns')
    ensures SeenOk(seen, reigns')
  {
    forall key | key in seen ensures key.term in reigns' { assert GrowsAt(reigns, reigns', key.term); }
  }

  /** The steps that touch no leader's bookkeeping. */
  lemma QuietStepInOrder(s: Cluster, step: Step)
    requires Inv(s) && OrderInv(s) && Enabled(s, step) && Inv(Do(s, step))
    requires step.Timeout? || step.AnswerVote? || step.LosePoll? || step.DeliverAppend?
    ensures OrderInv(Do(s, step))
  {
    var s' := Do(s, step);
    GrowsRefl(s.past.reigns);
    assert s'.past.reigns == s.past.reigns && s'.past.seen == s.past.seen && s'.parcels == s.parcels;
    assert s'.clock == s.clock;
    forall i | i in s'.nodes ensures LeaderInOrder(s'.nodes[i], s'.parcels, s'.past.seen, s'.past.reigns) {
      assert LeaderInOrder(s.nodes[i], s.parcels, s.past.seen, s.past.reigns);
      if step.DeliverAppend? && i == step.parcel.to {
        DeliveredRole(s.nodes[i], step.parcel.args, step.truncOk, step.appendOk);
      }
      StaysInOrder(s.nodes[i], s'.nodes[i], s.parcels, s.past.seen, s.past.reigns, s.past.reigns);
    }
  }

  lemma DeliveredRole(n: Node, a: AppendArgs, truncOk: bool, appendOk: bool)
    ensures var n' := HandleAppend(n, a, truncOk, appendOk).0; n' == n || n'.role == Follower
  {
    var m := Acknowledge(n, a);
    var merged := m.(log := Cut(m, a.entries).log + Rest(m, a.entries));
    CatchUpFrame(FollowCommit(merged, a.leaderCommit));
  }

  lemma ProposeInOrder(s: Cluster, i: nat, data: Bytes)
    requires Inv(s) && OrderInv(s) && Enabled(s, ClientProposal(i, data))
    ensures OrderInv(DoPropose(s, i, data))
  {
    var s' := DoPropose(s, i, data);
    var n0, n := s.nodes[i], s'.nodes[i];
    var R, R' := s.past.reigns, s'.past.reigns;
    StepRemembers(s, ClientProposal(i, data));
    SeenGrows(s.past.seen, R, R');
    forall j | j in s'.nodes ensures LeaderInOrder(s'.nodes[j], s'.parcels, s'.past.seen, R') {
      assert LeaderInOrder(s.nodes[j], s.parcels, s.past.seen, R);
      if j != i {
        StaysInOrder(s.nodes[j], s'.nodes[j], s.parcels, s.past.seen, R, R');
      } else {
        forall p | p in s.parcels ensures PeerInOrder(n, s.past.seen, p) { assert PeerInOrder(n0, s.past.seen, p); }
        assert GrowsAt(R, R', n.term);
        PickMonotone(n0.matched, |n0.log|, n.matched, |n.log|);
      }
    }
  }

  lemma TickInOrder(s: Cluster, i: nat)
    requires Inv(s) && OrderInv(s) && Enabled(s, Tick(i))
    ensures OrderInv(DoTick(s, i))
  {
    var s' := DoTick(s, i);
    var h, n := s.past, s.nodes[i];
    assert NodeShape(s.nodes.Keys, i, n) && LeaderOk(h.reigns, i, n) && NodeCommits(s.nodes.Keys, n, h.reigns, h.acks);
    assert BookkeepingOk(s.nodes.Keys, n, h.acks);
    forall p | p in s'.parcels && p !in s.parcels
      ensures p.stamp == s.clock && p.args.term == n.term && Reach(p) == |n.log|
    {
      TickMessage(s.nodes.Keys, n, h.reigns, h.acks, p.to, s.clock);
      assert BookOk(n, h.acks, p.to);
    }
    forall p | p in s.parcels && p.args.term == n.term ensures Reach(p) <= |n.log| {
      assert ParcelOk(s.nodes.Keys, h.reigns, h.acks, p);
    }
    forall j | j in s'.nodes ensures LeaderInOrder(s'.nodes[j], s'.parcels, h.seen, h.reigns) {
      var l := s.nodes[j];
      assert LeaderInOrder(l, s.parcels, h.seen, h.reigns);
      forall p | l.role == Leader && p in s'.parcels ensures PeerInOrder(l, h.seen, p) {
        if p in s.parcels { assert PeerInOrder(l, h.seen, p); }
        else if l.term == n.term { NewMessageInOrder(s, j, i, p); }
      }
    }
  }

  /** A leader has recorded no more than its own log. */
  lemma NewMessageInOrder(s: Cluster, j: nat, i: nat, p: Parcel)
    requires Inv(s) && OrderInv(s) && i in s.nodes && j in s.nodes && s.nodes[i].role == s.nodes[j].role == Leader
    requires s.nodes[i].term == s.nodes[j].term == p.args.term && Reach(p) == |s.nodes[i].log|
    requires p in TickParcels(s.nodes[i], s.clock)
    ensures PeerInOrder(s.nodes[j], s.past.seen, p)
  {
    var h, n := s.past, s.nodes[i];
    assert LeaderOk(h.reigns, i, n) && LeaderOk(h.reigns, j, s.nodes[j]) && NodeShape(s.nodes.Keys, i, n);
    assert BookkeepingOk(s.nodes.Keys, n, h.acks) && BookOk(n, h.acks, p.to);
    AckedInReign(s.nodes, h.reigns, h.acks, p.to, n.term);
  }

  /** Winning starts from nothing recorded. */
  lemma CountVoteInOrder(s: Cluster, k: PollKey)
    requires Inv(s) && OrderInv(s) && Enabled(s, CountVote(k)) && Inv(DoCountVote(s, k))
    ensures OrderInv(DoCountVote(s, k))
  {
    var s' := DoCountVote(s, k);
    var i := k.candidate;
    var n0, n := s.nodes[i], s'.nodes[i];
    var R, R', seen := s.past.reigns, s'.past.reigns, s.past.seen;
    WinRemembers(s, k);
    SeenGrows(seen, R, R');
    forall j | j in s'.nodes ensures LeaderInOrder(s'.nodes[j], s'.parcels, seen, R') {
      assert LeaderInOrder(s.nodes[j], s.parcels, seen, R);
      if j != i || n.role != Leader {
        StaysInOrder(s.nodes[j], s'.nodes[j], s.parcels, seen, R, R');
      } else {
        WinnerInOrder(s, k);
      }
    }
  }

  lemma WinnerInOrder(s: Cluster, k: PollKey)
    requires Inv(s) && OrderInv(s) && Enabled(s, CountVote(k))
    requires DoCountVote(s, k).nodes[k.candidate].role == Leader
    ensures LeaderInOrder(DoCountVote(s, k).nodes[k.candidate], s.parcels, s.past.seen, DoCountVote(s, k).past.reigns)
  {
    var n0, n := s.nodes[k.candidate], DoCountVote(s, k).nodes[k.candidate];
    WinIsNew(s, k);
    assert NodeShape(s.nodes.Keys, k.candidate, n0) && NodeCommits(s.nodes.Keys, n0, s.past.reigns, s.past.acks);
    forall q | PollKey(n.id, n.term, q) !in s.past.seen ensures Slot(n.matched, q) == 0 {}
    forall p | p in s.parcels ensures PeerInOrder(n, s.past.seen, p) {}
  }

  lemma WinIsNew(s: Cluster, k: PollKey)
    requires Inv(s) && Enabled(s, CountVote(k))
    requires HandleVoteReply(s.nodes[k.candidate], s.polls[k].reply).role == Leader
    ensures s.nodes[k.candidate].term !in s.past.reigns
    ensures HandleVoteReply(s.nodes[k.candidate], s.polls[k].reply).term == s.nodes[k.candidate].term
  {
    var i, h := k.candidate, s.past;
    assert NodeShape(s.nodes.Keys, i, s.nodes[i]);
    assert CandidateOk(s.nodes.Keys, h.ballots, s.polls, h.counted, i, s.nodes[i]);
    assert PollOk(s.nodes, h.ballots, k, s.polls[k]);
    assert |h.counted[i] + {k.peer}| == |h.counted[i]| + 1;
    TermIsNew(s.nodes, h.reigns, h.ballots, i, h.counted[i] + {k.peer});
  }

  // ---- Replies ----

  /** A reply in order never lowers what is recorded for the peer. */
  lemma RecordGrows(n: Node, reigns: Reigns, acks: map<Seat, nat>, peers: set<nat>, parcels: set<Parcel>,
                    seen: map<PollKey, nat>, a: Answer)
    requires n.role == Leader && LeaderInOrder(n, parcels, seen, reigns) && a.parcel in parcels
    requires ParcelOk(peers, reigns, acks, a.parcel) && ReignsOk(reigns)
    requires a.parcel.args.term == n.term && a.parcel.args.leader == n.id
    requires var key := PollKey(n.id, n.term, a.parcel.to); key in seen ==> seen[key] <= a.parcel.stamp
    ensures var m := RecordReply(n, a.parcel.to, a.parcel.args, a.reply);
      forall q :: Slot(n.matched, q) <= Slot(m.matched, q)
    ensures var m := RecordReply(n, a.parcel.to, a.parcel.args, a.reply);
      m.matched == n.matched || m.matched == n.matched[a.parcel.to := Reach(a.parcel)]
    ensures Slot(n.matched, a.parcel.to) <= Reach(a.parcel)
  {
    var args := a.parcel.args;
    assert PeerInOrder(n, seen, a.parcel);
    assert Slot(n.matched, a.parcel.to) <= Reach(a.parcel);
    assert ReignOk(reigns, n.term);
    if args.entries != [] { CarriedIsWellFormed(args, reigns[n.term].log); }
    SlotsGrow(n, a, Reach(a.parcel));
  }

  lemma SlotsGrow(n: Node, a: Answer, reach: nat)
    requires var es := a.parcel.args.entries; es != [] ==> es[|es| - 1].index == reach
    requires Slot(n.matched, a.parcel.to) <= reach
    ensures var m := RecordReply(n, a.parcel.to, a.parcel.args, a.reply);
      && (m.matched == n.matched || m.matched == n.matched[a.parcel.to := reach])
      && forall q :: Slot(n.matched, q) <= Slot(m.matched, q)
  {
  }

  lemma RecordInOrder(n: Node, m: Node, parcels: set<Parcel>, clock: nat, seen: map<PollKey, nat>, reigns: Reigns,
                      p: Parcel)
    requires n.role == Leader && LeaderInOrder(n, parcels, seen, reigns) && StampsOk(parcels, clock) && p in parcels
    requires m.id == n.id && m.term == n.term == p.args.term
    requires m.matched == n.matched || m.matched == n.matched[p.to := Reach(p)]
    requires Slot(n.matched, p.to) <= Reach(p)
    ensures forall q :: q in parcels ==> PeerInOrder(m, seen[PollKey(n.id, n.term, p.to) := p.stamp], q)
    ensures UnseenIsZero(m, seen[PollKey(n.id, n.term, p.to) := p.stamp])
  {
    var seen' := seen[PollKey(n.id, n.term, p.to) := p.stamp];
    forall q | q in parcels ensures PeerInOrder(m, seen', q) { assert PeerInOrder(n, seen, q); }
    forall q | PollKey(m.id, m.term, q) !in seen' ensures Slot(m.matched, q) == 0 { assert Slot(n.matched, q) == 0; }
  }

  /** The commit rule never picks an index below the commit index. */
  lemma AdvanceIsForward(n: Node, m: Node, peers: set<nat>, reigns: Reigns, acks: map<Seat, nat>)
    requires CommitPicked(n, reigns) && ReignOk(reigns, n.term) && LeaderOk(reigns, n.id, n) && n.role == Leader
    requires NodeShape(peers, n.id, n) && BookkeepingOk(peers, n, acks)
    requires m == n.(matched := m.matched, next := m.next) && m.matched.Keys == n.matched.Keys
    requires forall q :: Slot(n.matched, q) <= Slot(m.matched, q)
    ensures MajorityPick(n.matched, |n.log|) <= MajorityPick(m.matched, |m.log|)
    ensures n.commit <= TryAdvance(m).commit
    ensures TryAdvance(m) ==
      m.(commit := TryAdvance(m).commit, applied := TryAdvance(m).applied, kv := TryAdvance(m).kv)
    ensures TryAdvance(m).commit == n.commit || TryAdvance(m).commit == MajorityPick(m.matched, |m.log|)
  {
    VoteClaim(m);
    forall q | q in n.matched ensures n.matched[q] <= m.matched[q] { assert Slot(n.matched, q) <= Slot(m.matched, q); }
    PickMonotone(n.matched, |n.log|, m.matched, |m.log|);
    var pick := MajorityPick(m.matched, |m.log|);
    CatchUpFrame(m.(commit := pick));
    if CanAdvance(m) {
      assert reigns[n.term].log[pick - 1].term == n.term;
      assert pick > reigns[n.term].start;
    }
  }

  /** The leader that handles a reply in order. */
  lemma AnswerEffect(peers: set<nat>, n: Node, reigns: Reigns, acks: map<Seat, nat>, parcels: set<Parcel>, clock: nat,
                     seen: map<PollKey, nat>, a: Answer)
    requires n.role == Leader && NodeShape(peers, n.id, n) && LeaderOk(reigns, n.id, n) && BookkeepingOk(peers, n, acks)
    requires ReignsOk(reigns) && LeaderInOrder(n, parcels, seen, reigns) && StampsOk(parcels, clock)
    requires AnswerOk(acks, parcels, a) && ParcelOk(peers, reigns, acks, a.parcel)
    requires a.parcel.args.term == n.term && a.parcel.args.leader == n.id
    requires var key := PollKey(n.id, n.term, a.parcel.to); key in seen ==> seen[key] <= a.parcel.stamp
    ensures var n' := HandleAppendReply(n, a.parcel.to, a.parcel.args, a.reply);
      && n.commit <= n'.commit
      && LeaderInOrder(n', parcels, seen[PollKey(n.id, n.term, a.parcel.to) := a.parcel.stamp], reigns)
  {
    var n' := HandleAppendReply(n, a.parcel.to, a.parcel.args, a.reply);
    AnswerForward(peers, n, reigns, acks, parcels, seen, a);
    if n'.role == Leader {
      RecordInOrder(n, n', parcels, clock, seen, reigns, a.parcel);
    }
  }

  /** Its commit index does not drop, and its slots are as recorded. */
  lemma AnswerForward(peers: set<nat>, n: Node, reigns: Reigns, acks: map<Seat, nat>, parcels: set<Parcel>,
                      seen: map<PollKey, nat>, a: Answer)
    requires n.role == Leader && NodeShape(peers, n.id, n) && LeaderOk(reigns, n.id, n)
    requires BookkeepingOk(peers, n, acks) && ReignsOk(reigns) && LeaderInOrder(n, parcels, seen, reigns)
    requires AnswerOk(acks, parcels, a) && ParcelOk(peers, reigns, acks, a.parcel)
    requires a.parcel.args.term == n.term && a.parcel.args.leader == n.id
    requires var key := PollKey(n.id, n.term, a.parcel.to); key in seen ==> seen[key] <= a.parcel.stamp
    ensures var n' := HandleAppendReply(n, a.parcel.to, a.parcel.args, a.reply);
      && n.commit <= n'.commit && n'.id == n.id && (n'.role == Leader ==> n'.term == n.term && CommitPicked(n', reigns))
      && (n'.matched == n.matched || n'.matched == n.matched[a.parcel.to := Reach(a.parcel)])
    ensures Slot(n.matched, a.parcel.to) <= Reach(a.parcel)
  {
    var m := RecordReply(n, a.parcel.to, a.parcel.args, a.reply);
    assert ReignOk(reigns, n.term);
    RecordGrows(n, reigns, acks, peers, parcels, seen, a);
    RecordFrame(n, a.parcel.to, a.parcel.args, a.reply);
    if a.reply.success {
      assert BookOk(n, acks, a.parcel.to);
      AdvanceIsForward(n, m, peers, reigns, acks);
    }
  }

  lemma AnswerInOrder(s: Cluster, a: Answer)
    requires Inv(s) && OrderInv(s) && Enabled(s, DeliverAnswer(a)) && InOrder(s, DeliverAnswer(a))
    ensures OrderInv(DoDeliverAnswer(s, a))
    ensures s.nodes[a.parcel.args.leader].commit <= DoDeliverAnswer(s, a).nodes[a.parcel.args.leader].commit
  {
    var s' := DoDeliverAnswer(s, a);
    var h, i := s.past, a.parcel.args.leader;
    var n := s.nodes[i];
    assert AnswerOk(h.acks, s.parcels, a) && ParcelOk(s.nodes.Keys, h.reigns, h.acks, a.parcel);
    assert NodeShape(s.nodes.Keys, i, n) && LeaderOk(h.reigns, i, n) && BookkeepingOk(s.nodes.Keys, n, h.acks);
    assert LeaderInOrder(n, s.parcels, h.seen, h.reigns);
    AnswerEffect(s.nodes.Keys, n, h.reigns, h.acks, s.parcels, s.clock, h.seen, a);
    forall j | j in s'.nodes ensures LeaderInOrder(s'.nodes[j], s'.parcels, s'.past.seen, h.reigns) {
      if j != i {
        assert LeaderInOrder(s.nodes[j], s.parcels, h.seen, h.reigns) && NodeShape(s.nodes.Keys, j, s.nodes[j]);
        OtherLeaderInOrder(s.nodes[j], s.parcels, h.seen, h.reigns, PollKey(i, n.term, a.parcel.to), a.parcel.stamp);
      }
    }
    assert ReignsOk(h.reigns);
  }

  lemma OtherLeaderInOrder(n: Node, parcels: set<Parcel>, seen: map<PollKey, nat>, reigns: Reigns, key: PollKey,
                           stamp: nat)
    requires LeaderInOrder(n, parcels, seen, reigns) && key.candidate != n.id
    ensures LeaderInOrder(n, parcels, seen[key := stamp], reigns)
  {
    if n.role == Leader {
      forall p | p in parcels ensures PeerInOrder(n, seen[key := stamp], p) { assert PeerInOrder(n, seen, p); }
      forall q | PollKey(n.id, n.term, q) !in seen[key := stamp]
        ensures Slot(n.matched, q) == 0
      {
        assert Slot(n.matched, q) == 0;
      }
    }
  }

  lemma StepKeepsOrder(s: Cluster, step: Step)
    requires Inv(s) && OrderInv(s) && Enabled(s, step) && InOrder(s, step)
    ensures OrderInv(Do(s, step))
  {
    StepKeepsInv(s, step);
    match step
    case CountVote(k) => CountVoteInOrder(s, k);
    case ClientProposal(i, data) => ProposeInOrder(s, i, data);
    case Tick(i) => TickInOrder(s, i);
    case DeliverAnswer(a) => AnswerInOrder(s, a);
    case _ => QuietStepInOrder(s, step);
  }

  lemma {:induction false} RunKeepsOrder(r: Run, k: nat)
    requires IsOrderedRun(r) && k < |r.states|
    ensures OrderInv(r.states[k])
  {
    if k > 0 {
      RunKeepsOrder(r, k - 1);
      RunKeepsInv(r, k - 1);
      StepKeepsOrder(r.states[k - 1], r.steps[k - 1]);
    }
  }

  // ---- The theorem ----

  lemma DeliveredCommitGrows(s: Cluster, p: Parcel, truncOk: bool, appendOk: bool)
    requires Inv(s) && Enabled(s, DeliverAppend(p, truncOk, appendOk))
    ensures s.nodes[p.to].commit <= HandleAppend(s.nodes[p.to], p.args, truncOk, appendOk).0.commit
  {
    var n0, R := s.nodes[p.to], s.past.reigns;
    if n0.term <= p.args.term {
      assert ParcelOk(s.nodes.Keys, R, s.past.acks, p);
      FreshDelivery(s.nodes, R, s.past.acks, p, truncOk, appendOk);
      if p.args.entries == [] { EmptyMessageMatches(s.nodes, R, s.past.acks, p); }
      var (n, reply) := HandleAppend(n0, p.args, truncOk, appendOk);
      if reply.success && p.args.leaderCommit > n0.commit {
        FollowedCommit(Acknowledge(n0, p.args), p.args, R[p.args.term].log, n, reply);
      }
    }
  }

  lemma StepNeverLowersCommit(s: Cluster, step: Step, i: nat)
    requires Inv(s) && OrderInv(s) && Enabled(s, step) && InOrder(s, step) && i in s.nodes
    ensures i in Do(s, step).nodes && s.nodes[i].commit <= Do(s, step).nodes[i].commit
  {
    match step
    case DeliverAnswer(a) => AnswerInOrder(s, a);
    case DeliverAppend(p, truncOk, appendOk) => DeliveredCommitGrows(s, p, truncOk, appendOk);
    case _ =>
  }

  /** In a run that handles each peer's replies in order, no node's commit index ever drops. */
  lemma {:induction false} CommitNeverMovesBack(r: Run, j: nat, k: nat, i: nat)
    requires IsOrderedRun(r) && j <= k < |r.states| && i in r.states[j].nodes
    ensures i in r.states[k].nodes && r.states[j].nodes[i].commit <= r.states[k].nodes[i].commit
    decreases k - j
  {
    if j < k {
      CommitNeverMovesBack(r, j, k - 1, i);
      RunKeepsInv(r, k - 1);
      RunKeepsOrder(r, k - 1);
      StepNeverLowersCommit(r.states[k - 1], r.steps[k - 1], i);
    }
  }
}
