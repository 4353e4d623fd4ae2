/** When a commit index does move back: the exact condition for a leader that handles a reply, in any run, and
    a run in which it is met. */
module LateReplies {
  import opened Common
  import opened Quorums
  import opened RaftNode
  import opened Replication
  import opened Clusters
  import opened Invariants
  import opened Growth
  import opened Elections
  import opened Delivery
  import opened Safety
  import opened CommitOrder

  // ---- What holds of every leader, whatever the order of the replies ----

  /** A leader's slots are empty or lie behind its election, and its commit index is from before its election
      or at most what the commit rule picks now. */
  ghost predicate LeaderPicked(n: Node, reigns: Reigns) {
    n.role == Leader ==> CommitPicked(n, reigns) && forall q :: q in n.matched ==> SlotOk(n.matched[q], reigns, n.term)
  }

  ghost predicate SlotOk(slot: nat, reigns: Reigns, t: nat) {
    slot == 0 || (t in reigns && slot > reigns[t].start)
  }

  /** Every message of a leader reaches beyond the log it was elected with. */
  ghost predicate ReachesFar(p: Parcel, reigns: Reigns) {
    p.args.term in reigns && Reach(p) > reigns[p.args.term].start
  }

  ghost predicate LateInv(s: Cluster) {
    && (forall p :: p in s.parcels ==> ReachesFar(p, s.past.reigns))
    && forall i {:trigger LeaderPicked(s.nodes[i], s.past.reigns)} ::
         i in s.nodes ==> LeaderPicked(s.nodes[i], s.past.reigns)
  }

  lemma StaysPicked(n: Node, n': Node, reigns: Reigns, reigns': Reigns)
    requires LeaderPicked(n, reigns) && Grows(reigns, reigns')
    requires n'.role == Leader ==> n.role == Leader && n'.term == n.term && n'.log == n.log
                                   && n'.matched == n.matched && n'.commit == n.commit
    ensures LeaderPicked(n', reigns')
  {
    if n'.role == Leader { assert GrowsAt(reigns, reigns', n.term); }
  }

  lemma ParcelsStayFar(parcels: set<Parcel>, reigns: Reigns, reigns': Reigns)
    requires (forall p :: p in parcels ==> ReachesFar(p, reigns)) && Grows(reigns, reigns')
    ensures forall p :: p in parcels ==> ReachesFar(p, reigns')
  {
    forall p | p in parcels ensures ReachesFar(p, reigns') { assert GrowsAt(reigns, reigns', p.args.term); }
  }

  lemma QuietStepPicked(s: Cluster, step: Step)
    requires Inv(s) && LateInv(s) && Enabled(s, step)
    requires step.Timeout? || step.AnswerVote? || step.LosePoll? || step.DeliverAppend?
    ensures LateInv(Do(s, step))
  {
    var s' := Do(s, step);
    GrowsRefl(s.past.reigns);
    assert s'.past.reigns == s.past.reigns && s'.parcels == s.parcels;
    forall i | i in s'.nodes ensures LeaderPicked(s'.nodes[i], s'.past.reigns) {
      assert LeaderPicked(s.nodes[i], s.past.reigns);
      if step.DeliverAppend? && i == step.parcel.to {
        DeliveredRole(s.nodes[i], step.parcel.args, step.truncOk, step.appendOk);
      }
      StaysPicked(s.nodes[i], s'.nodes[i], s.past.reigns, s.past.reigns);
    }
  }

  lemma ProposePicked(s: Cluster, i: nat, data: Bytes)
    requires Inv(s) && LateInv(s) && Enabled(s, ClientProposal(i, data))
    ensures LateInv(DoPropose(s, i, data))
  {
    var s' := DoPropose(s, i, data);
    var n0, n := s.nodes[i], s'.nodes[i];
    var R, R' := s.past.reigns, s'.past.reigns;
    StepRemembers(s, ClientProposal(i, data));
    ParcelsStayFar(s.parcels, R, R');
    forall j | j in s'.nodes ensures LeaderPicked(s'.nodes[j], R') {
      assert LeaderPicked(s.nodes[j], R);
      if j != i {
        StaysPicked(s.nodes[j], s'.nodes[j], R, R');
      } else {
        assert GrowsAt(R, R', n.term);
        PickMonotone(n0.matched, |n0.log|, n.matched, |n.log|);
      }
    }
  }

  lemma TickPicked(s: Cluster, i: nat)
    requires Inv(s) && LateInv(s) && Enabled(s, Tick(i))
    ensures LateInv(DoTick(s, i))
  {
    var s' := DoTick(s, i);
    var h, n := s.past, s.nodes[i];
    assert NodeShape(s.nodes.Keys, i, n) && LeaderOk(h.reigns, i, n) && NodeCommits(s.nodes.Keys, n, h.reigns, h.acks);
    assert BookkeepingOk(s.nodes.Keys, n, h.acks) && ReignOk(h.reigns, n.term);
    forall p | p in s'.parcels ensures ReachesFar(p, h.reigns) {
      if p !in s.parcels {
        TickMessage(s.nodes.Keys, n, h.reigns, h.acks, p.to, s.clock);
        assert BookOk(n, h.acks, p.to);
      }
    }
    forall j | j in s'.nodes ensures LeaderPicked(s'.nodes[j], h.reigns) { assert LeaderPicked(s.nodes[j], h.reigns); }
  }

  /** Winning starts from empty slots, and from a commit index in the log it was elected with. */
  lemma CountVotePicked(s: Cluster, k: PollKey)
    requires Inv(s) && LateInv(s) && Enabled(s, CountVote(k))
    ensures LateInv(DoCountVote(s, k))
  {
    var s' := DoCountVote(s, k);
    var i := k.candidate;
    var n0, n := s.nodes[i], s'.nodes[i];
    var R, R' := s.past.reigns, s'.past.reigns;
    WinRemembers(s, k);
    ParcelsStayFar(s.parcels, R, R');
    forall j | j in s'.nodes ensures LeaderPicked(s'.nodes[j], R') {
      assert LeaderPicked(s.nodes[j], R);
      if j != i || n.role != Leader {
        StaysPicked(s.nodes[j], s'.nodes[j], R, R');
      } else {
        WinnerPicked(s, k);
      }
    }
  }

  lemma WinnerPicked(s: Cluster, k: PollKey)
    requires Inv(s) && Enabled(s, CountVote(k))
    requires DoCountVote(s, k).nodes[k.candidate].role == Leader
    ensures LeaderPicked(DoCountVote(s, k).nodes[k.candidate], DoCountVote(s, k).past.reigns)
  {
    var n0, n := s.nodes[k.candidate], DoCountVote(s, k).nodes[k.candidate];
    assert NodeShape(s.nodes.Keys, k.candidate, n0) && NodeCommits(s.nodes.Keys, n0, s.past.reigns, s.past.acks);
    EmptySlots(n0, s.polls[k].reply);
  }

  lemma EmptySlots(n: Node, r: VoteReply)
    requires HandleVoteReply(n, r).role == Leader && n.role == Candidate && n.matched.Keys <= n.peers
    ensures forall q :: q in HandleVoteReply(n, r).matched ==> HandleVoteReply(n, r).matched[q] == 0
    ensures HandleVoteReply(n, r).commit == n.commit
  {
  }

  // ---- The pick and one slot ----

  /** Changing one slot changes the count by one at most. */
  lemma VotesUpdate(m: map<nat, nat>, last: nat, k: nat, slot: nat, v: nat)
    requires k in m
    ensures |m[k := slot]| == |m|
    ensures Votes(m[k := slot], last, v) + (if m[k] >= v then 1 else 0)
            == Votes(m, last, v) + if slot >= v then 1 else 0
  {
    var m' := m[k := slot];
    assert m'.Keys == m.Keys && |m'| == |m'.Keys| && |m| == |m.Keys|;
    var others := AtLeast(m, v) - {k};
    assert AtLeast(m', v) - {k} == others;
    assert AtLeast(m, v) == if m[k] >= v then others + {k} else others;
    assert AtLeast(m', v) == if slot >= v then others + {k} else others;
  }

  /** The pick reaches v if and only if more than half of the collected values do. */
  lemma PickReaches(m: map<nat, nat>, last: nat, v: nat)
    ensures MajorityPick(m, last) >= v <==> Votes(m, last, v) >= (|m| + 1) / 2 + 1
  {
    var pick := MajorityPick(m, last);
    if pick >= v {
      VotesAntitone(m, last, v, pick);
    } else {
      VotesAntitone(m, last, pick + 1, v);
    }
  }

  /** The pick is one of the collected values. */
  lemma PickIsAValue(m: map<nat, nat>, last: nat)
    ensures MajorityPick(m, last) == last || exists k :: k in m && m[k] == MajorityPick(m, last)
  {
    var pick := MajorityPick(m, last);
    if forall k :: k in m ==> m[k] != pick {
      assert AtLeast(m, pick) == AtLeast(m, pick + 1);
    }
  }

  /** With slots that are empty or behind the election, a pick is of the leader's own term. */
  lemma PickIsOwn(n: Node, m: Node, peers: set<nat>, reigns: Reigns)
    requires n.role == Leader && LeaderOk(reigns, n.id, n) && ReignOk(reigns, n.term) && NodeShape(peers, n.id, n)
    requires m == n.(matched := m.matched, next := m.next)
    requires forall q :: q in m.matched ==> SlotOk(m.matched[q], reigns, n.term) && m.matched[q] <= |n.log|
    ensures var pick := MajorityPick(m.matched, |m.log|);
      (CanAdvance(m) <==> pick > 0) && (pick > 0 ==> reigns[n.term].start < pick <= |m.log|)
    ensures CanAdvance(m) ==> TryAdvance(m).commit == MajorityPick(m.matched, |m.log|)
    ensures !CanAdvance(m) ==> TryAdvance(m).commit == n.commit
    ensures TryAdvance(m) ==
      m.(commit := TryAdvance(m).commit, applied := TryAdvance(m).applied, kv := TryAdvance(m).kv)
  {
    VoteClaim(m);
    var pick := MajorityPick(m.matched, |m.log|);
    PickIsAValue(m.matched, |m.log|);
    CatchUpFrame(m.(commit := pick));
  }

  // ---- Replies ----

  /** What a leader that handles a reply to its own message starts from. */
  ghost predicate Handles(peers: set<nat>, n: Node, reigns: Reigns, acks: map<Seat, nat>, parcels: set<Parcel>,
                          a: Answer) {
    && n.role == Leader && NodeShape(peers, n.id, n) && LeaderOk(reigns, n.id, n) && BookkeepingOk(peers, n, acks)
    && ReignsOk(reigns) && LeaderPicked(n, reigns)
    && AnswerOk(acks, parcels, a) && ParcelOk(peers, reigns, acks, a.parcel) && ReachesFar(a.parcel, reigns)
    && a.parcel.args.term == n.term && a.parcel.args.leader == n.id
    && (forall p :: p in peers ==> Acked(acks, p, n.term) <= |n.log|)
  }

  lemma RecordedSlot(peers: set<nat>, n: Node, reigns: Reigns, acks: map<Seat, nat>, parcels: set<Parcel>, a: Answer)
    requires Handles(peers, n, reigns, acks, parcels, a)
    ensures var m := RecordReply(n, a.parcel.to, a.parcel.args, a.reply);
      && a.parcel.to in n.matched
      && m.matched == (if a.reply.success && a.parcel.args.entries != []
                       then n.matched[a.parcel.to := Reach(a.parcel)] else n.matched)
      && (a.reply.success ==> m == n.(matched := m.matched, next := m.next))
      && (forall q :: q in m.matched ==> SlotOk(m.matched[q], reigns, n.term) && m.matched[q] <= |n.log|)
    ensures a.parcel.args.entries != [] ==> a.parcel.args.entries[|a.parcel.args.entries| - 1].index == Reach(a.parcel)
  {
    var args := a.parcel.args;
    assert ReignOk(reigns, n.term) && BookOk(n, acks, a.parcel.to);
    if args.entries != [] { CarriedIsWellFormed(args, reigns[n.term].log); }
    forall q | q in n.matched ensures n.matched[q] <= |n.log| { assert BookOk(n, acks, q); }
  }

  /** The exact condition, of one leader. */
  lemma ReplyLowersCommit(peers: set<nat>, n: Node, reigns: Reigns, acks: map<Seat, nat>, parcels: set<Parcel>,
                          a: Answer)
    requires Handles(peers, n, reigns, acks, parcels, a)
    ensures HandleAppendReply(n, a.parcel.to, a.parcel.args, a.reply).commit < n.commit <==> TakesBack(n, a)
    ensures LeaderPicked(HandleAppendReply(n, a.parcel.to, a.parcel.args, a.reply), reigns)
  {
    var m := RecordReply(n, a.parcel.to, a.parcel.args, a.reply);
    RecordedSlot(peers, n, reigns, acks, parcels, a);
    RecordFrame(n, a.parcel.to, a.parcel.args, a.reply);
    assert ReignOk(reigns, n.term);
    if a.reply.success && a.parcel.args.entries != [] {
      PickIsOwn(n, m, peers, reigns);
      VoteClaim(n);
      DropArithmetic(n.matched, a.parcel.to, Reach(a.parcel), |n.log|, n.commit, reigns[n.term].start);
    }
  }

  /** The pick after a slot moves, against a commit index that the pick reached before or that lies in the log
      of the election. */
  lemma DropArithmetic(m: map<nat, nat>, k: nat, slot: nat, last: nat, commit: nat, start: nat)
    requires k in m && slot > start && (commit <= start || commit <= MajorityPick(m, last))
    requires MajorityPick(m[k := slot], last) == 0 || MajorityPick(m[k := slot], last) > start
    ensures 0 < MajorityPick(m[k := slot], last) < commit
            <==> slot < commit <= m[k] && Votes(m, last, commit) == (|m| + 1) / 2 + 1
    ensures MajorityPick(m[k := slot], last) == 0 ==> commit <= start
  {
    SlotMoves(m, k, slot, last, commit);
    SlotMoves(m, k, slot, last, 1);
  }

  lemma SlotMoves(m: map<nat, nat>, k: nat, slot: nat, last: nat, v: nat)
    requires k in m
    ensures MajorityPick(m, last) >= v <==> Votes(m, last, v) >= (|m| + 1) / 2 + 1
    ensures MajorityPick(m[k := slot], last) >= v <==> Votes(m[k := slot], last, v) >= (|m| + 1) / 2 + 1
    ensures Votes(m[k := slot], last, v) + (if m[k] >= v then 1 else 0)
            == Votes(m, last, v) + if slot >= v then 1 else 0
  {
    VotesUpdate(m, last, k, slot, v);
    PickReaches(m, last, v);
    PickReaches(m[k := slot], last, v);
  }

  /** The reply confirms less than the commit index from a peer recorded to hold it, and exactly as many
      values reach the commit index as the commit rule needs. */
  ghost predicate TakesBack(n: Node, a: Answer) {
    var entries, p := a.parcel.args.entries, a.parcel.to;
    && a.reply.success && entries != []
    && entries[|entries| - 1].index < n.commit <= Slot(n.matched, p)
    && Votes(n.matched, n.LastIndex(), n.commit) == (|n.matched| + 1) / 2 + 1
  }

  lemma AnswerPicked(s: Cluster, a: Answer)
    requires Inv(s) && LateInv(s) && Enabled(s, DeliverAnswer(a))
    ensures LateInv(DoDeliverAnswer(s, a))
    ensures var n := s.nodes[a.parcel.args.leader];
      DoDeliverAnswer(s, a).nodes[a.parcel.args.leader].commit < n.commit <==> TakesBack(n, a)
  {
    var s' := DoDeliverAnswer(s, a);
    var h, i := s.past, a.parcel.args.leader;
    var n := s.nodes[i];
    assert AnswerOk(h.acks, s.parcels, a) && ParcelOk(s.nodes.Keys, h.reigns, h.acks, a.parcel);
    assert NodeShape(s.nodes.Keys, i, n) && LeaderOk(h.reigns, i, n) && BookkeepingOk(s.nodes.Keys, n, h.acks);
    assert LeaderPicked(n, h.reigns);
    forall p | p in s.nodes.Keys
      ensures Acked(h.acks, p, n.term) <= |n.log|
    {
      AckedInReign(s.nodes, h.reigns, h.acks, p, n.term);
    }
    ReplyLowersCommit(s.nodes.Keys, n, h.reigns, h.acks, s.parcels, a);
    forall j | j in s'.nodes
      ensures LeaderPicked(s'.nodes[j], h.reigns)
    {
      assert j != i ==> LeaderPicked(s.nodes[j], h.reigns);
    }
  }

  lemma StepKeepsPicked(s: Cluster, step: Step)
    requires Inv(s) && LateInv(s) && Enabled(s, step)
    ensures LateInv(Do(s, step))
  {
    match step
    case CountVote(k) => CountVotePicked(s, k);
    case ClientProposal(i, data) => ProposePicked(s, i, data);
    case Tick(i) => TickPicked(s, i);
    case DeliverAnswer(a) => AnswerPicked(s, a);
    case _ => QuietStepPicked(s, step);
  }

  lemma {:induction false} RunKeepsPicked(r: Run, k: nat)
    requires IsRun(r) && k < |r.states|
    ensures LateInv(r.states[k])
  {
    if k > 0 {
      RunKeepsPicked(r, k - 1);
      RunKeepsInv(r, k - 1);
      StepKeepsPicked(r.states[k - 1], r.steps[k - 1]);
    }
  }

  /** In any run, a step lowers some node's commit index if and only if it delivers a reply that takes it
      back. */
  lemma CommitDropsExactly(r: Run, k: nat, i: nat)
    requires IsRun(r) && k < |r.steps| && i in r.states[k].nodes
    ensures i in r.states[k + 1].nodes
    ensures r.states[k + 1].nodes[i].commit < r.states[k].nodes[i].commit <==>
            && r.steps[k].DeliverAnswer? && r.steps[k].answer.parcel.args.leader == i
            && TakesBack(r.states[k].nodes[i], r.steps[k].answer)
  {
    RunKeepsInv(r, k);
    RunKeepsPicked(r, k);
    var s, step := r.states[k], r.steps[k];
    assert Enabled(s, step) && r.states[k + 1] == Do(s, step);
    match step
    case DeliverAnswer(a) => AnswerPicked(s, a);
    case DeliverAppend(p, truncOk, appendOk) => DeliveredCommitGrows(s, p, truncOk, appendOk);
    case _ =>
  }
}
