/** Why fewer nodes than that are not enough: whatever a run did before, from then on the others cannot commit
    a single new entry. */
module Shortages {
  import opened Common
  import opened Quorums
  import opened RaftNode
  import opened Handlers
  import opened Replication
  import opened Clusters
  import opened Invariants
  import opened Growth
  import opened Elections
  import opened Delivery
  import opened Safety
  import opened Runs
  import opened Availability

  // ---- What was there before ----

  /** The first m entries were already in some leader's log. */
  ghost predicate Old(before: Reigns, log: seq<Entry>, m: nat) {
    m == 0 || exists T :: T in before && Agree(log, before[T].log, m)
  }

  lemma OldShorter(before: Reigns, log: seq<Entry>, m: nat, k: nat)
    requires Old(before, log, m) && k <= m
    ensures Old(before, log, k)
  {
    if k > 0 {
      var T :| T in before && Agree(log, before[T].log, m);
      AgreePrefix(log, before[T].log, m, k);
    }
  }

  lemma OldTransfer(before: Reigns, log: seq<Entry>, log': seq<Entry>, m: nat)
    requires Old(before, log, m) && Agree(log', log, m)
    ensures Old(before, log', m)
  {
    if m > 0 {
      var T :| T in before && Agree(log, before[T].log, m);
      AgreeTransitive(log', log, before[T].log, m);
    }
  }

  ghost predicate OldNode(before: Reigns, n: Node) {
    Old(before, n.log, n.commit) && Old(before, n.log, n.applied)
  }

  ghost predicate OldParcel(before: Reigns, reigns: Reigns, p: Parcel) {
    p.args.term in reigns && Old(before, reigns[p.args.term].log, p.args.leaderCommit)
  }

  /** A node that is down has confirmed no more than its term's leader had. */
  ghost predicate Silent(before: Reigns, acks: map<Seat, nat>, q: nat, T: nat) {
    Acked(acks, q, T) <= if T in before then |before[T].log| else 0
  }

  /** Since `before`, with only nodes of Q acting, nothing new has been committed anywhere. */
  ghost predicate Starved(before: Reigns, s: Cluster, Q: set<nat>) {
    && Grows(before, s.past.reigns)
    && (forall q, T :: q !in Q ==> Silent(before, s.past.acks, q, T))
    && (forall i :: i in s.nodes ==> OldNode(before, s.nodes[i]))
    && (forall p :: p in s.parcels ==> OldParcel(before, s.past.reigns, p))
  }

  lemma CommittedIsOld(peers: set<nat>, reigns: Reigns, acks: map<Seat, nat>, log: seq<Entry>, m: nat, bound: nat)
    requires m <= |log| && Committed(peers, reigns, acks, log[..m], bound)
    ensures Old(reigns, log, m)
  {
    if m > 0 {
      var T, k := CommittedWitness(peers, reigns, acks, log[..m], bound);
      assert Agree(log, reigns[T].log, m);
    }
  }

  lemma StarvedFromHere(s: Cluster, Q: set<nat>)
    requires Inv(s)
    ensures Starved(s.past.reigns, s, Q)
  {
    var R, acks := s.past.reigns, s.past.acks;
    GrowsRefl(R);
    forall q, T | q !in Q ensures Silent(R, acks, q, T) {
      if Seat(q, T) in acks { assert AckOk(s.nodes, R, acks, Seat(q, T)); }
    }
    forall i | i in s.nodes ensures OldNode(R, s.nodes[i]) {
      var n := s.nodes[i];
      assert NodeCommits(s.nodes.Keys, n, R, acks);
      CommittedIsOld(s.nodes.Keys, R, acks, n.log, n.commit, n.term);
      CommittedIsOld(s.nodes.Keys, R, acks, n.log, n.applied, n.term);
    }
    forall p | p in s.parcels ensures OldParcel(R, R, p) {
      assert ParcelOk(s.nodes.Keys, R, acks, p);
      assert Agree(R[p.args.term].log, R[p.args.term].log, p.args.leaderCommit);
    }
  }

  // ---- One step ----

  lemma ParcelStaysOld(before: Reigns, reigns: Reigns, reigns': Reigns, p: Parcel)
    requires OldParcel(before, reigns, p) && Grows(reigns, reigns')
    ensures OldParcel(before, reigns', p)
  {
    var T, m := p.args.term, p.args.leaderCommit;
    assert GrowsAt(reigns, reigns', T);
    if m > 0 {
      AgreeGrows(reigns, reigns', T, reigns[T].log, m);
      OldTransfer(before, reigns[T].log, reigns'[T].log, m);
    }
  }

  lemma QuietStaysOld(before: Reigns, n: Node, n': Node)
    requires OldNode(before, n) && n.commit <= |n.log| && n.applied <= |n.log|
    requires n'.commit == n.commit && n'.applied == n.applied && n.log <= n'.log
    ensures OldNode(before, n')
  {
    OldTransfer(before, n.log, n'.log, n.commit);
    OldTransfer(before, n.log, n'.log, n.applied);
  }

  /** Two committed pieces of log, the shorter one known to be old if the longer one is. */
  lemma ShorterCommitIsOld(s: Cluster, before: Reigns, a: seq<Entry>, m: nat, ta: nat, b: seq<Entry>, k: nat, tb: nat)
    requires Inv(s) && m <= |a| && k <= |b| && m <= k && Old(before, b, k)
    requires Committed(s.nodes.Keys, s.past.reigns, s.past.acks, a[..m], ta)
    requires Committed(s.nodes.Keys, s.past.reigns, s.past.acks, b[..k], tb)
    ensures Old(before, a, m)
  {
    CommittedComparable(s.nodes.Keys, s.past.reigns, s.past.ballots, s.past.acks, a[..m], ta, b[..k], tb);
    forall j | 0 <= j < m ensures a[j] == b[j] { assert a[..m][j] == b[..k][j]; }
    OldShorter(before, b, k, m);
    OldTransfer(before, b, a, m);
  }

  /** A follower commits what it had committed or what the message's sender had. */
  lemma DeliveryStaysOld(before: Reigns, s: Cluster, p: Parcel, truncOk: bool, appendOk: bool, Q: set<nat>)
    requires Inv(s) && Enabled(s, DeliverAppend(p, truncOk, appendOk)) && Starved(before, s, Q)
    ensures OldNode(before, DoDeliverAppend(s, p, truncOk, appendOk).nodes[p.to])
  {
    var s' := DoDeliverAppend(s, p, truncOk, appendOk);
    var n, n' := s.nodes[p.to], s'.nodes[p.to];
    StepKeepsInv(s, DeliverAppend(p, truncOk, appendOk));
    StepRemembers(s, DeliverAppend(p, truncOk, appendOk));
    assert ParcelOk(s.nodes.Keys, s.past.reigns, s.past.acks, p);
    if n.term <= p.args.term {
      FreshDelivery(s.nodes, s.past.reigns, s.past.acks, p, truncOk, appendOk);
      DeliveredCommits(s, s', n, p, n');
      assert OldNode(before, n) && OldParcel(before, s.past.reigns, p);
      DeliveredIsOld(before, s, s', n, p, n');
    } else {
      assert n' == n && OldNode(before, n);
    }
  }

  /** What the follower has committed and applied afterwards reaches no further than what it had committed or
      applied, or than the message's commit index. */
  lemma DeliveredCommits(s: Cluster, s': Cluster, n: Node, p: Parcel, n': Node)
    requires p.args.term in s.past.reigns && n.term <= p.args.term
    requires exists r :: Delivered(Acknowledge(n, p.args), p.args, s.past.reigns[p.args.term].log, n', r)
    ensures n'.commit == n.commit || n'.commit <= p.args.leaderCommit
    ensures n'.applied == n.applied || n'.applied == n'.commit
  {
  }

  lemma DeliveredIsOld(before: Reigns, s: Cluster, s': Cluster, n: Node, p: Parcel, n': Node)
    requires Inv(s) && Inv(s') && Remembers(s, s') && s'.nodes.Keys == s.nodes.Keys
    requires p.to in s.nodes && n == s.nodes[p.to] && n' == s'.nodes[p.to] && p in s.parcels
    requires OldNode(before, n) && OldParcel(before, s.past.reigns, p)
    requires n'.commit == n.commit || n'.commit <= p.args.leaderCommit
    requires n'.applied == n.applied || n'.applied == n'.commit
    ensures OldNode(before, n')
  {
    var peers, T := s.nodes.Keys, p.args.term;
    var R, R', acks, acks' := s.past.reigns, s'.past.reigns, s.past.acks, s'.past.acks;
    assert NodeCommits(peers, n, R, acks) && NodeCommits(peers, n', R', acks') && ParcelOk(peers, R, acks, p);
    CommittedGrows(peers, R, R', acks, acks', n.log[..n.commit], n.term, n.term);
    CommittedGrows(peers, R, R', acks, acks', n.log[..n.applied], n.term, n.term);
    CommittedGrows(peers, R, R', acks, acks', R[T].log[..p.args.leaderCommit], T, T);
    if n'.commit == n.commit {
      ShorterCommitIsOld(s', before, n'.log, n'.commit, n'.term, n.log, n.commit, n.term);
    } else {
      ShorterCommitIsOld(s', before, n'.log, n'.commit, n'.term, R[T].log, p.args.leaderCommit, T);
    }
    if n'.applied == n.applied {
      ShorterCommitIsOld(s', before, n'.log, n'.applied, n'.term, n.log, n.applied, n.term);
    }
  }

  lemma FewVotes(m: map<nat, nat>, last: nat, v: nat, id: nat, Q: set<nat>)
    requires id in Q && forall p :: p in m && m[p] >= v ==> p in Q && p != id
    ensures Votes(m, last, v) <= |Q|
  {
    SubsetSize(AtLeast(m, v), Q - {id});
    assert |Q - {id}| + 1 == |Q|;
  }

  /** The index the commit rule picks is at most what the nodes that are down had confirmed. */
  lemma PickIsOld(peers: set<nat>, id: nat, m: map<nat, nat>, last: nat, Q: set<nat>, bound: nat)
    requires m.Keys == peers && id in Q && !Enough(peers, Q) && id in m && m[id] == 0
    requires forall p :: p in m && p !in Q ==> m[p] <= bound
    ensures MajorityPick(m, last) <= bound
  {
    assert |m| == |m.Keys|;
    if MajorityPick(m, last) > bound { FewVotes(m, last, MajorityPick(m, last), id, Q); }
  }

  function Length(before: Reigns, T: nat): nat {
    if T in before then |before[T].log| else 0
  }

  /** The slots of the nodes that are down stay within what was there before. */
  lemma SlotsAreOld(s: Cluster, before: Reigns, m: Node, Q: set<nat>)
    requires Starved(before, s, Q) && m.role == Leader && BookkeepingOk(s.nodes.Keys, m, s.past.acks)
    requires m.id in s.nodes && m.matched.Keys <= s.nodes.Keys
    ensures m.matched.Keys == s.nodes.Keys && m.matched[m.id] == 0
    ensures forall p :: p in m.matched && p !in Q ==> m.matched[p] <= Length(before, m.term) || p == m.id
  {
    forall p | p in s.nodes
      ensures p in m.matched && (p == m.id ==> m.matched[p] == 0)
      ensures p in Q || p == m.id || m.matched[p] <= Length(before, m.term)
    {
      assert BookOk(m, s.past.acks, p);
      assert p !in Q ==> Silent(before, s.past.acks, p, m.term);
    }
  }

  lemma AdvanceStaysOld(s: Cluster, before: Reigns, m: Node, Q: set<nat>)
    requires Inv(s) && Starved(before, s, Q) && m.role == Leader && BookkeepingOk(s.nodes.Keys, m, s.past.acks)
    requires NodeShape(s.nodes.Keys, m.id, m) && m.id in s.nodes && m.id in Q && !Enough(s.nodes.Keys, Q)
    requires m.term in s.past.reigns && s.past.reigns[m.term].log == m.log && OldNode(before, m)
    ensures OldNode(before, TryAdvance(m))
  {
    AdvanceFrame(m);
    SlotsAreOld(s, before, m, Q);
    assert ReignOk(s.past.reigns, m.term);
    VoteClaim(m);
    var pick := MajorityPick(m.matched, |m.log|);
    PickIsOld(s.nodes.Keys, m.id, m.matched, |m.log|, Q, Length(before, m.term));
    CommitRule(m, pick);
    if m.term in before {
      assert GrowsAt(before, s.past.reigns, m.term);
      var lead := before[m.term].log;
      assert lead[..pick] == m.log[..|lead|][..pick] == m.log[..pick];
      assert Agree(m.log, lead, pick);
    }
  }

  lemma AnswerStaysOld(before: Reigns, s: Cluster, a: Answer, Q: set<nat>)
    requires Inv(s) && Enabled(s, DeliverAnswer(a)) && Starved(before, s, Q)
    requires a.parcel.args.leader in Q && !Enough(s.nodes.Keys, Q)
    ensures OldNode(before, DoDeliverAnswer(s, a).nodes[a.parcel.args.leader])
  {
    var h, i := s.past, a.parcel.args.leader;
    var n := s.nodes[i];
    var m := RecordReply(n, a.parcel.to, a.parcel.args, a.reply);
    assert AnswerOk(h.acks, s.parcels, a) && ParcelOk(s.nodes.Keys, h.reigns, h.acks, a.parcel);
    assert NodeShape(s.nodes.Keys, i, n) && LeaderOk(h.reigns, i, n) && BookkeepingOk(s.nodes.Keys, n, h.acks);
    RecordBooks(s.nodes.Keys, n, h.reigns, h.acks, s.parcels, a);
    RecordFrame(n, a.parcel.to, a.parcel.args, a.reply);
    assert OldNode(before, n);
    if a.reply.success && a.parcel.args.entries != [] { AdvanceStaysOld(s, before, m, Q); }
  }

  // ---- All steps ----

  lemma NodesStayOld(before: Reigns, s: Cluster, step: Step, Q: set<nat>, i: nat)
    requires Inv(s) && Enabled(s, step) && Starved(before, s, Q) && ActsIn(step, Q) && !Enough(s.nodes.Keys, Q)
    requires i in s.nodes && i in Do(s, step).nodes
    ensures OldNode(before, Do(s, step).nodes[i])
  {
    var n := s.nodes[i];
    assert OldNode(before, n) && NodeCommits(s.nodes.Keys, n, s.past.reigns, s.past.acks);
    match step
    case DeliverAppend(p, truncOk, appendOk) => if i == p.to { DeliveryStaysOld(before, s, p, truncOk, appendOk, Q); }
    case DeliverAnswer(a) => if i == a.parcel.args.leader { AnswerStaysOld(before, s, a, Q); }
    case _ =>
      QuietStep(s, step, i);
      QuietStaysOld(before, n, Do(s, step).nodes[i]);
  }

  /** No other step commits or applies anything, and logs only grow. */
  lemma QuietStep(s: Cluster, step: Step, i: nat)
    requires Enabled(s, step) && !step.DeliverAppend? && !step.DeliverAnswer?
    requires i in s.nodes && i in Do(s, step).nodes
    ensures var n, n' := s.nodes[i], Do(s, step).nodes[i];
      n'.commit == n.commit && n'.applied == n.applied && n.log <= n'.log
  {
    match step
    case CountVote(k) => VoteEffect(s.nodes[k.candidate], s.polls[k].reply);
    case AnswerVote(k) => VoteAnswer(s.nodes[k.peer], s.polls[k].args);
    case _ =>
  }

  lemma VoteEffect(n: Node, r: VoteReply)
    ensures var n' := HandleVoteReply(n, r);
      n'.commit == n.commit && n'.applied == n.applied && n.log <= n'.log
  {
  }

  lemma ParcelsStayOld(before: Reigns, s: Cluster, step: Step, Q: set<nat>, p: Parcel)
    requires Inv(s) && Enabled(s, step) && Starved(before, s, Q) && p in Do(s, step).parcels
    ensures OldParcel(before, Do(s, step).past.reigns, p)
  {
    if p in s.parcels {
      StepRemembers(s, step);
      ParcelStaysOld(before, s.past.reigns, Do(s, step).past.reigns, p);
    } else {
      var n := s.nodes[step.node];
      assert NodeShape(s.nodes.Keys, step.node, n) && LeaderOk(s.past.reigns, step.node, n) && OldNode(before, n);
      HeartbeatMeaning(n, p.to);
    }
  }

  lemma OthersStaySilent(s: Cluster, step: Step, Q: set<nat>, q: nat, T: nat)
    requires Enabled(s, step) && ActsIn(step, Q) && q !in Q
    ensures Acked(Do(s, step).past.acks, q, T) == Acked(s.past.acks, q, T)
  {
  }

  lemma StepKeepsStarved(before: Reigns, s: Cluster, step: Step, Q: set<nat>)
    requires Inv(s) && Enabled(s, step) && Starved(before, s, Q) && ActsIn(step, Q) && !Enough(s.nodes.Keys, Q)
    ensures Starved(before, Do(s, step), Q) && Do(s, step).nodes.Keys == s.nodes.Keys
  {
    var s' := Do(s, step);
    SameNodes(s, step);
    StepRemembers(s, step);
    GrowsTransitive(before, s.past.reigns, s'.past.reigns);
    forall q, T | q !in Q ensures Silent(before, s'.past.acks, q, T) {
      OthersStaySilent(s, step, Q, q, T);
      assert Silent(before, s.past.acks, q, T);
    }
    forall i | i in s'.nodes ensures OldNode(before, s'.nodes[i]) { NodesStayOld(before, s, step, Q, i); }
    forall p | p in s'.parcels ensures OldParcel(before, s'.past.reigns, p) { ParcelsStayOld(before, s, step, Q, p); }
  }

  lemma SameNodes(s: Cluster, step: Step)
    requires Inv(s) && Enabled(s, step)
    ensures Do(s, step).nodes.Keys == s.nodes.Keys
  {
    match step
    case AnswerVote(k) =>
    case _ =>
  }

  lemma {:induction false} RunStarves(r: Run, r': Run, Q: set<nat>, k: nat)
    requires Continues(r, r', Q) && !Enough(r.peers, Q) && |r.steps| <= k < |r'.states|
    ensures Starved(Last(r).past.reigns, r'.states[k], Q)
  {
    if k == |r.steps| {
      RunKeepsInv(r, k);
      StarvedFromHere(Last(r), Q);
    } else {
      RunStarves(r, r', Q, k - 1);
      RunKeepsInv(r', k - 1);
      StepKeepsStarved(Last(r).past.reigns, r'.states[k - 1], r'.steps[k - 1], Q);
    }
  }

  // ---- The theorem ----

  /** An entry that a leader takes afterwards is in no log that was there before. */
  lemma NewEntryIsNotOld(before: Reigns, s: Cluster, i: nat, data: Bytes, log: seq<Entry>, m: nat)
    requires Inv(s) && i in s.nodes && s.nodes[i].role == Leader && Grows(before, s.past.reigns) && ReignsOk(before)
    requires Old(before, log, m)
    ensures var e := Proposal(s.nodes[i], data); e.index > m || e.index > |log| || log[e.index - 1] != e
  {
    var n, e := s.nodes[i], Proposal(s.nodes[i], data);
    NodeIsSane(s, i);
    VoteClaim(n);
    assert LeaderOk(s.past.reigns, i, n);
    if e.index <= m {
      var T :| T in before && Agree(log, before[T].log, m);
      AgreeAtPosition(log, before[T].log, m, e.index - 1);
      assert ReignOk(before, T) && JustifiedAt(before, before[T].log, e.index - 1);
      assert n.term in before ==> GrowsAt(before, s.past.reigns, n.term);
    }
  }

  /** If no more than half of N + 1 nodes are up, no way on in which only they act ever commits or applies,
      on any node, a command that a leader takes from then on. */
  lemma TooFewCannotWrite(r: Run, r': Run, Q: set<nat>, k: nat, data: Bytes, e: Entry, q: nat)
    requires Continues(r, r', Q) && !Enough(r.peers, Q)
    requires |r.steps| <= k && Proposed(r', k, data, e) && q in Last(r').nodes
    ensures !AppliedEntry(Last(r').nodes[q], e)
    ensures var n := Last(r').nodes[q]; e.index <= n.commit && e.index <= |n.log| ==> n.log[e.index - 1] != e
  {
    var n := Last(r').nodes[q];
    RunStarves(r, r', Q, |r'.steps|);
    assert OldNode(Last(r).past.reigns, n);
    ProposedIsNew(r, r', Q, k, data, e, n.log, n.applied);
    ProposedIsNew(r, r', Q, k, data, e, n.log, n.commit);
  }

  lemma ProposedIsNew(r: Run, r': Run, Q: set<nat>, k: nat, data: Bytes, e: Entry, log: seq<Entry>, m: nat)
    requires Continues(r, r', Q) && !Enough(r.peers, Q) && |r.steps| <= k && Proposed(r', k, data, e)
    requires Old(Last(r).past.reigns, log, m)
    ensures e.index > m || e.index > |log| || log[e.index - 1] != e
  {
    ProposalMoment(r, r', Q, k);
    NewEntryIsNotOld(Last(r).past.reigns, r'.states[k], r'.steps[k].node, data, log, m);
  }

  lemma ProposalMoment(r: Run, r': Run, Q: set<nat>, k: nat)
    requires Continues(r, r', Q) && !Enough(r.peers, Q) && |r.steps| <= k < |r'.steps| && r'.steps[k].ClientProposal?
    ensures ReignsOk(Last(r).past.reigns) && Inv(r'.states[k])
    ensures Grows(Last(r).past.reigns, r'.states[k].past.reigns)
    ensures var i := r'.steps[k].node; i in r'.states[k].nodes && r'.states[k].nodes[i].role == Leader
  {
    RunKeepsInv(r, |r.steps|);
    RunKeepsInv(r', k);
    RunStarves(r, r', Q, k);
    assert Enabled(r'.states[k], r'.steps[k]);
  }

  /** There is a way on in which only nodes of Q act, and some node applies a command taken from a client. */
  ghost predicate CanWrite(r: Run, Q: set<nat>, data: Bytes) {
    exists r', k, e, q ::
      Continues(r, r', Q) && |r.steps| <= k && Proposed(r', k, data, e)
      && q in Last(r').nodes && AppliedEntry(Last(r').nodes[q], e)
  }

  /** When writes can succeed, exactly: from every reachable state, with the nodes of Q up and all others
      down, a new command can be applied if and only if Q has more than half of N + 1 nodes. */
  lemma WritesNeedEnough(r: Run, Q: set<nat>, data: Bytes)
    requires IsRun(r) && Q <= r.peers
    ensures CanWrite(r, Q, data) <==> Enough(r.peers, Q)
  {
    if Enough(r.peers, Q) {
      var r', k, e := EnoughCanWrite(r, Q, data);
      var q :| q in Q;
      assert AppliedEntry(Last(r').nodes[q], e);
    } else if CanWrite(r, Q, data) {
      var r', k, e, q :|
        Continues(r, r', Q) && |r.steps| <= k && Proposed(r', k, data, e)
        && q in Last(r').nodes && AppliedEntry(Last(r').nodes[q], e);
      TooFewCannotWrite(r, r', Q, k, data, e, q);
    }
  }

  /** Three nodes are not available with one of them down, although two are a majority. */
  lemma TwoOfThreeAreTooFew(r: Run, Q: set<nat>, data: Bytes)
    requires IsRun(r) && Q <= r.peers && |r.peers| == 3 && |Q| == 2
    ensures IsQuorum(r.peers, Q) && !CanWrite(r, Q, data)
  {
    WritesNeedEnough(r, Q, data);
  }
}
