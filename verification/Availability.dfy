/** When writes can succeed although some nodes are down: a run of the others that elects a leader, replicates
    a command and applies it, from any reachable state. */
module Availability {
  import opened Common
  import opened StateMachines
  import opened Quorums
  import opened RaftNode
  import opened Handlers
  import opened Replication
  import opened Clusters
  import opened Invariants
  import opened Safety
  import opened Runs

  /** As many nodes as the commit rule needs: the middle one of N + 1 recorded indices, the leader's own slot
      being 0. For an odd number of nodes this is one more than a majority. */
  predicate Enough(peers: set<nat>, Q: set<nat>) {
    2 * |Q| > |peers| + 1
  }

  // ---- What is known of a node ----

  ghost predicate Sane(n: Node, i: nat, peers: set<nat>) {
    && n.id == i && n.peers == peers && n.offset == 0 && Contiguous(n.log, 0)
    && (forall k :: 0 <= k < |n.log| ==> n.log[k].term <= n.term)
  }

  /** A leader's slot for a peer: nextIndex points into the log or behind it. */
  ghost predicate SlotSane(n: Node, p: nat) {
    && p in n.next && 1 <= n.next[p] <= |n.log| + 1
    && p in n.matched && n.matched[p] <= |n.log| && (p == n.id ==> n.matched[p] == 0)
  }

  lemma NodeIsSane(s: Cluster, i: nat)
    requires Inv(s) && i in s.nodes
    ensures Sane(s.nodes[i], i, s.nodes.Keys)
    ensures s.nodes[i].role == Leader ==>
      s.nodes[i].matched.Keys == s.nodes.Keys && forall p :: p in s.nodes ==> SlotSane(s.nodes[i], p)
  {
    var h, n := s.past, s.nodes[i];
    assert NodeShape(s.nodes.Keys, i, n) && LogOk(h.reigns, n);
    JustifiedLog(h.reigns, n.log);
    if n.role == Leader {
      assert LeaderOk(h.reigns, i, n) && BookkeepingOk(s.nodes.Keys, n, h.acks);
      forall p | p in s.nodes ensures SlotSane(n, p) {
        assert BookOk(n, h.acks, p);
        if Seat(p, n.term) in h.acks { assert AckOk(s.nodes, h.reigns, h.acks, Seat(p, n.term)); }
      }
    }
  }

  lemma LogsMatch(s: Cluster, i: nat, q: nat)
    requires Inv(s) && i in s.nodes && q in s.nodes
    ensures LogMatch(s.nodes[q].log, s.nodes[i].log)
  {
    assert LogOk(s.past.reigns, s.nodes[i]) && LogOk(s.past.reigns, s.nodes[q]);
    JustifiedMatch(s.past.reigns, s.nodes[q].log, s.nodes[i].log);
  }

  // ---- One exchange between leader and follower ----

  /** The leader's whole log is with the follower, and the leader knows. */
  ghost predicate Replicated(l: Node, f: Node) {
    && f.id in l.matched && l.matched[f.id] == |l.log| && f.id in l.next && l.next[f.id] == |l.log| + 1
    && Agree(f.log, l.log, |l.log|)
  }

  lemma OwedCarries(l: Node, q: nat, a: AppendArgs)
    requires l.offset == 0 && Contiguous(l.log, 0) && Owed(l, q, a)
    ensures Carries(a, l.log) && WellFormed(a) && a.prevIndex + |a.entries| == |l.log|
  {
    assert l.log[a.prevIndex..] == l.log[a.prevIndex..|l.log|];
    CarriedIsWellFormed(a, l.log);
  }

  lemma AcceptedAgrees(l: Node, f: Node, a: AppendArgs)
    requires f.offset == 0 && LogMatch(f.log, l.log) && Carries(a, l.log) && WellFormed(a) && a.entries != []
    requires a.term >= f.term && !Contradicts(f, a) && !Detached(f, a)
    ensures Agree(HandleAppend(f, a, true, true).0.log, l.log, a.prevIndex + |a.entries|)
  {
    var m := Acknowledge(f, a);
    var merged := Cut(m, a.entries).log + Rest(m, a.entries);
    assert PrevMismatch(m, a) <==> Contradicts(f, a);
    MergeFollows(m, a, l.log);
    AcceptedMerge(f, a);
    CommitFrame(m.(log := merged), a.leaderCommit);
    CatchUpFrame(FollowCommit(m.(log := merged), a.leaderCommit));
  }

  /** What one exchange achieves: the follower holds the leader's log, or nextIndex has come down. */
  ghost predicate Exchanged(l: Node, f: Node, l': Node, f': Node) {
    && f'.term == l.term && f'.id == f.id
    && l'.role == Leader && l'.term == l.term && l'.log == l.log && l'.id == l.id
    && (forall p :: p != f.id ==> Slot(l'.next, p) == Slot(l.next, p) && Slot(l'.matched, p) == Slot(l.matched, p))
    && f.id in l.next && f.id in l'.next
    && (Replicated(l', f') || (f'.log == f.log && 1 <= l'.next[f.id] < l.next[f.id]))
  }

  lemma FollowerAnswers(l: Node, f: Node, a: AppendArgs)
    requires f.offset == 0 && f.term <= a.term && LogMatch(f.log, l.log)
    requires Carries(a, l.log) && WellFormed(a) && a.entries != [] && a.prevIndex + |a.entries| == |l.log|
    ensures var (f', r) := HandleAppend(f, a, true, true);
      && f'.term == r.term == a.term && f'.id == f.id
      && (r.success ==> Agree(f'.log, l.log, |l.log|))
      && (!r.success ==> f'.log == f.log && r.conflictIndex <= a.prevIndex && a.prevIndex > 0)
  {
    AppendAnswer(f, a, true, true);
    AppendFields(f, a, true, true);
    if HandleAppend(f, a, true, true).1.success { AcceptedAgrees(l, f, a); }
  }

  lemma ExchangeWorks(l: Node, f: Node, a: AppendArgs)
    requires l.role == Leader && l.offset == 0 && Contiguous(l.log, 0) && f.offset == 0
    requires f.term <= l.term && LogMatch(f.log, l.log)
    requires Owed(l, f.id, a) && l.next[f.id] <= |l.log|
    ensures var (f', r) := HandleAppend(f, a, true, true);
      Exchanged(l, f, HandleAppendReply(l, f.id, a, r), f')
  {
    OwedCarries(l, f.id, a);
    FollowerAnswers(l, f, a);
    ReplyMoves(l, f.id, a, HandleAppend(f, a, true, true).1);
  }

  /** A confirmation of the rest of the log, or a refusal that moves nextIndex back. */
  lemma ReplyMoves(l: Node, q: nat, a: AppendArgs, r: AppendReply)
    requires l.role == Leader && q in l.next && a.term == l.term == r.term && WellFormed(a) && a.entries != []
    requires l.next[q] == a.prevIndex + 1 && a.prevIndex + |a.entries| == |l.log|
    requires r.success || (r.conflictIndex <= a.prevIndex && a.prevIndex > 0)
    ensures var l' := HandleAppendReply(l, q, a, r);
      && l'.role == Leader && l'.term == l.term && l'.log == l.log && l'.id == l.id
      && (forall p :: p != q ==> Slot(l'.next, p) == Slot(l.next, p) && Slot(l'.matched, p) == Slot(l.matched, p))
      && q in l'.next && (r.success ==> q in l'.matched && l'.matched[q] == |l.log| && l'.next[q] == |l.log| + 1)
      && (!r.success ==> 1 <= l'.next[q] < l.next[q])
  {
    ReplyAnswer(l, q, a, r);
    ReplyTerm(l, q, a, r);
  }

  // ---- Commits ----

  /** When all other nodes of Q hold its whole log and they are enough, the leader has committed and applied
      it. */
  ghost predicate CommitsIfEnough(n: Node, Q: set<nat>) {
    Enough(n.peers, Q) && (forall p :: p in Q && p != n.id ==> p in n.matched && n.matched[p] == |n.log|) ==>
      n.commit == |n.log| && n.applied >= |n.log|
  }

  lemma EnoughVotes(m: map<nat, nat>, last: nat, peers: set<nat>, others: set<nat>)
    requires m.Keys == peers && 2 * (|others| + 1) > |peers| + 1
    requires forall p :: p in others ==> p in m && m[p] == last
    requires forall p :: p in m ==> m[p] <= last
    ensures IsMajorityPick(m, last, last)
  {
    assert |m| == |m.Keys|;
    SubsetSize(others, AtLeast(m, last));
    assert AtLeast(m, last + 1) == {};
  }

  lemma EnoughCommits(n: Node, Q: set<nat>)
    requires n.offset == 0 && Contiguous(n.log, 0) && n.log != [] && n.log[|n.log| - 1].term == n.term
    requires n.matched.Keys == n.peers && n.id in Q && forall p :: p in n.matched ==> n.matched[p] <= |n.log|
    ensures CommitsIfEnough(TryAdvance(n), Q)
  {
    AdvanceFrame(n);
    if Enough(n.peers, Q) && forall p :: p in Q && p != n.id ==> p in n.matched && n.matched[p] == |n.log| {
      assert |Q - {n.id}| + 1 == |Q|;
      EnoughVotes(n.matched, |n.log|, n.peers, Q - {n.id});
      CommitRule(n, |n.log|);
    }
  }

  lemma ConfirmationCommits(l: Node, q: nat, a: AppendArgs, r: AppendReply, Q: set<nat>)
    requires l.offset == 0 && Contiguous(l.log, 0) && l.log != [] && l.log[|l.log| - 1].term == l.term
    requires l.matched.Keys == l.peers && q in l.peers && l.id in Q
    requires forall p :: p in l.matched ==> l.matched[p] <= |l.log|
    requires r.success && r.term == a.term && a.entries != [] && WellFormed(a) && a.prevIndex + |a.entries| == |l.log|
    ensures CommitsIfEnough(HandleAppendReply(l, q, a, r), Q)
  {
    EnoughCommits(RecordReply(l, q, a, r), Q);
  }

  /** A heartbeat tells a follower that holds the leader's log what is committed. */
  lemma HeartbeatTells(l: Node, f: Node, a: AppendArgs)
    requires l.offset == 0 && Contiguous(l.log, 0) && f.offset == 0 && Contiguous(f.log, 0) && f.term <= l.term
    requires Replicated(l, f) && Owed(l, f.id, a) && l.commit == |l.log| > 0
    ensures var f' := HandleAppend(f, a, true, true).0;
      && f'.applied >= |l.log| && Agree(f'.log, l.log, |l.log|)
      && f'.id == f.id && f'.term == l.term && f'.offset == 0 && Contiguous(f'.log, 0)
  {
    AgreeAtPosition(f.log, l.log, |l.log|, |l.log| - 1);
    AppendedLog(f, a);
    AppendedCommit(f, a);
    AppendFields(f, a, true, true);
  }

  lemma ExchangeCommits(l: Node, f: Node, a: AppendArgs, Q: set<nat>)
    requires l.role == Leader && l.offset == 0 && Contiguous(l.log, 0) && f.offset == 0
    requires f.term <= l.term && LogMatch(f.log, l.log) && Owed(l, f.id, a) && l.next[f.id] <= |l.log|
    requires l.log[|l.log| - 1].term == l.term && l.matched.Keys == l.peers && f.id in l.peers && l.id in Q
    requires forall p :: p in l.matched ==> l.matched[p] <= |l.log|
    ensures var (f', r) := HandleAppend(f, a, true, true);
      var l' := HandleAppendReply(l, f.id, a, r);
      Replicated(l', f') ==> CommitsIfEnough(l', Q)
  {
    OwedCarries(l, f.id, a);
    FollowerAnswers(l, f, a);
    var r := HandleAppend(f, a, true, true).1;
    ReplyMoves(l, f.id, a, r);
    if r.success { ConfirmationCommits(l, f.id, a, r, Q); }
  }

  // ---- The leader's part of the run ----

  /** Node i leads term t with the log `lead`, which ends in that term, and no node of Q is ahead of it. */
  ghost predicate Leads(s: Cluster, i: nat, t: nat, lead: seq<Entry>, Q: set<nat>) {
    && Q <= s.nodes.Keys && i in Q && s.nodes[i].role == Leader && s.nodes[i].term == t && s.nodes[i].log == lead
    && lead != [] && lead[|lead| - 1].term == t
    && forall q :: q in Q ==> s.nodes[q].term <= t
  }

  lemma Send(r: Run, i: nat, q: nat, Q: set<nat>) returns (r': Run, p: Parcel)
    requires IsRun(r) && i in Last(r).nodes && Last(r).nodes[i].role == Leader && q in Last(r).nodes && q != i && i in Q
    ensures Continues(r, r', Q) && Last(r').nodes == Last(r).nodes
    ensures p in Last(r').parcels && p.to == q && p.args.leader == i && Owed(Last(r).nodes[i], q, p.args)
  {
    RunKeepsInv(r, |r.steps|);
    NodeIsSane(Last(r), i);
    NextIndexInRange(r, |r.steps|, i, q);
    p := Parcel(q, Last(r).clock, PeerMessage(Last(r).nodes[i], q).value);
    OwedIsSent(Last(r).nodes[i], q, p.args);
    AfterTick(Last(r), i, q);
    r' := Act(r, Tick(i), Q);
  }

  lemma Deliver(r: Run, p: Parcel, Q: set<nat>) returns (r': Run, a: Answer)
    requires IsRun(r) && p in Last(r).parcels && p.to in Last(r).nodes && p.to in Q
    ensures Continues(r, r', Q)
    ensures var (n, reply) := HandleAppend(Last(r).nodes[p.to], p.args, true, true);
      Last(r').nodes == Last(r).nodes[p.to := n] && a == Answer(p, reply) && a in Last(r').answers
  {
    AfterDelivery(Last(r), p);
    a := Answer(p, HandleAppend(Last(r).nodes[p.to], p.args, true, true).1);
    r' := Act(r, DeliverAppend(p, true, true), Q);
  }

  lemma Note(r: Run, a: Answer, Q: set<nat>) returns (r': Run)
    requires IsRun(r) && a in Last(r).answers && a.parcel.args.leader in Last(r).nodes && a.parcel.args.leader in Q
    requires var l := Last(r).nodes[a.parcel.args.leader]; l.role == Leader && l.term == a.parcel.args.term
    ensures Continues(r, r', Q)
    ensures var i := a.parcel.args.leader;
      Last(r').nodes == Last(r).nodes[i := HandleAppendReply(Last(r).nodes[i], a.parcel.to, a.parcel.args, a.reply)]
  {
    AfterAnswer(Last(r), a);
    r' := Act(r, DeliverAnswer(a), Q);
  }

  /** One exchange as steps of the run: tick, delivery, reply. */
  lemma Exchange(r: Run, i: nat, q: nat, Q: set<nat>) returns (r': Run, a: AppendArgs)
    requires IsRun(r) && i in Q && q in Q && i != q && i in Last(r).nodes && q in Last(r).nodes
    requires Last(r).nodes[i].role == Leader
    ensures Continues(r, r', Q) && Owed(Last(r).nodes[i], q, a)
    ensures var (f', reply) := HandleAppend(Last(r).nodes[q], a, true, true);
      Last(r').nodes == Last(r).nodes[q := f'][i := HandleAppendReply(Last(r).nodes[i], q, a, reply)]
  {
    var r1, p := Send(r, i, q, Q);
    var r2, answer := Deliver(r1, p, Q);
    var r3 := Note(r2, answer, Q);
    ContinuesTransitive(r, r1, r2, Q);
    ContinuesTransitive(r, r2, r3, Q);
    r', a := r3, p.args;
  }

  /** Between two states nothing changes but nodes i and q, and at i no slot but that for q. */
  ghost predicate SameBut(s: Cluster, s': Cluster, i: nat, q: nat) {
    && s'.nodes.Keys == s.nodes.Keys && i in s.nodes
    && (forall p :: p in s.nodes && p != i && p != q ==> s'.nodes[p] == s.nodes[p])
    && (forall p :: p != q ==>
          && Slot(s'.nodes[i].next, p) == Slot(s.nodes[i].next, p)
          && Slot(s'.nodes[i].matched, p) == Slot(s.nodes[i].matched, p))
  }

  /** Leader l and follower f, as any state of a run has them. */
  ghost predicate Paired(l: Node, f: Node, Q: set<nat>) {
    && l.role == Leader && l.offset == 0 && Contiguous(l.log, 0) && f.offset == 0 && LogMatch(f.log, l.log)
    && l.matched.Keys == l.peers && f.id in l.peers && l.id in Q
    && forall p :: p in l.matched ==> l.matched[p] <= |l.log|
  }

  lemma ArePaired(r: Run, i: nat, q: nat, Q: set<nat>)
    requires IsRun(r) && i in Last(r).nodes && q in Last(r).nodes && i in Q && Last(r).nodes[i].role == Leader
    ensures Paired(Last(r).nodes[i], Last(r).nodes[q], Q) && Last(r).nodes[q].id == q && Last(r).nodes[i].id == i
  {
    RunKeepsInv(r, |r.steps|);
    var s := Last(r);
    NodeIsSane(s, i);
    NodeIsSane(s, q);
    LogsMatch(s, i, q);
    forall p | p in s.nodes[i].matched ensures s.nodes[i].matched[p] <= |s.nodes[i].log| {
      assert SlotSane(s.nodes[i], p);
    }
  }

  /** What one exchange leaves of the two. */
  ghost predicate Judged(l: Node, f: Node, l': Node, f': Node, Q: set<nat>) {
    && Exchanged(l, f, l', f')
    && (Replicated(l', f') ==> CommitsIfEnough(l', Q))
  }

  lemma ExchangeJudged(l: Node, f: Node, a: AppendArgs, Q: set<nat>)
    requires Paired(l, f, Q) && f.term <= l.term && l.log != [] && l.log[|l.log| - 1].term == l.term
    requires Owed(l, f.id, a) && Slot(l.next, f.id) <= |l.log|
    ensures var (f', r) := HandleAppend(f, a, true, true); Judged(l, f, HandleAppendReply(l, f.id, a, r), f', Q)
  {
    ExchangeWorks(l, f, a);
    ExchangeCommits(l, f, a, Q);
  }

  lemma JudgedLeads(s: Cluster, s': Cluster, i: nat, q: nat, Q: set<nat>, t: nat, lead: seq<Entry>)
    requires Leads(s, i, t, lead, Q) && q in Q && q != i && s.nodes[q].id == q
    requires i in s'.nodes && q in s'.nodes && s'.nodes == s.nodes[q := s'.nodes[q]][i := s'.nodes[i]]
    requires Judged(s.nodes[i], s.nodes[q], s'.nodes[i], s'.nodes[q], Q)
    ensures Leads(s', i, t, lead, Q) && SameBut(s, s', i, q)
    ensures var l, f := s'.nodes[i], s'.nodes[q];
      (Replicated(l, f) && CommitsIfEnough(l, Q)) || 1 <= Slot(l.next, q) < Slot(s.nodes[i].next, q)
  {
  }

  /** One exchange, judged. */
  lemma ExchangeOnce(r: Run, i: nat, q: nat, Q: set<nat>, t: nat, lead: seq<Entry>) returns (r': Run)
    requires IsRun(r) && Leads(Last(r), i, t, lead, Q) && q in Q && q != i && Slot(Last(r).nodes[i].next, q) <= |lead|
    ensures Continues(r, r', Q) && Leads(Last(r'), i, t, lead, Q) && SameBut(Last(r), Last(r'), i, q)
    ensures var l, f := Last(r').nodes[i], Last(r').nodes[q];
      || (Replicated(l, f) && CommitsIfEnough(l, Q))
      || 1 <= Slot(l.next, q) < Slot(Last(r).nodes[i].next, q)
  {
    ArePaired(r, i, q, Q);
    var a;
    r', a := Exchange(r, i, q, Q);
    ExchangeLeads(Last(r).nodes, Last(r').nodes, i, q, Q, a);
    JudgedLeads(Last(r), Last(r'), i, q, Q, t, lead);
  }

  lemma ExchangeLeads(nodes: map<nat, Node>, nodes': map<nat, Node>, i: nat, q: nat, Q: set<nat>, a: AppendArgs)
    requires i in nodes && q in nodes && i != q && Paired(nodes[i], nodes[q], Q) && nodes[q].id == q
    requires nodes[q].term <= nodes[i].term && Slot(nodes[i].next, q) <= |nodes[i].log| && Owed(nodes[i], q, a)
    requires nodes[i].log != [] && nodes[i].log[|nodes[i].log| - 1].term == nodes[i].term
    requires var (f', reply) := HandleAppend(nodes[q], a, true, true);
      nodes' == nodes[q := f'][i := HandleAppendReply(nodes[i], q, a, reply)]
    ensures Judged(nodes[i], nodes[q], nodes'[i], nodes'[q], Q)
    ensures nodes' == nodes[q := nodes'[q]][i := nodes'[i]]
  {
    ExchangeJudged(nodes[i], nodes[q], a, Q);
  }

  /** Exchanges until the follower holds the leader's log: nextIndex comes down with each that fails. */
  lemma {:induction false} Push(r: Run, i: nat, q: nat, Q: set<nat>, t: nat, lead: seq<Entry>) returns (r': Run)
    requires IsRun(r) && Leads(Last(r), i, t, lead, Q) && q in Q && q != i && Slot(Last(r).nodes[i].next, q) <= |lead|
    ensures Continues(r, r', Q) && Leads(Last(r'), i, t, lead, Q) && SameBut(Last(r), Last(r'), i, q)
    ensures Replicated(Last(r').nodes[i], Last(r').nodes[q]) && CommitsIfEnough(Last(r').nodes[i], Q)
    decreases Slot(Last(r).nodes[i].next, q)
  {
    var r1 := ExchangeOnce(r, i, q, Q, t, lead);
    if Replicated(Last(r1).nodes[i], Last(r1).nodes[q]) && CommitsIfEnough(Last(r1).nodes[i], Q) {
      r' := r1;
    } else {
      r' := Push(r1, i, q, Q, t, lead);
      ContinuesTransitive(r, r1, r', Q);
    }
  }

  /** The log is with every node of Q but those still to do. */
  ghost predicate Pushed(s: Cluster, i: nat, lead: seq<Entry>, Q: set<nat>, todo: set<nat>)
    requires i in s.nodes && Q <= s.nodes.Keys
  {
    && todo <= Q - {i}
    && (forall q :: q in todo ==> Slot(s.nodes[i].next, q) <= |lead|)
    && (forall q :: q in Q && q != i && q !in todo ==> Replicated(s.nodes[i], s.nodes[q]))
  }

  lemma PushedOn(s: Cluster, s': Cluster, i: nat, q: nat, t: nat, lead: seq<Entry>, Q: set<nat>, todo: set<nat>)
    requires Leads(s, i, t, lead, Q) && Leads(s', i, t, lead, Q) && SameBut(s, s', i, q)
    requires Pushed(s, i, lead, Q, todo) && q in todo && Replicated(s'.nodes[i], s'.nodes[q])
    requires forall p :: p in Q ==> s.nodes[p].id == p && s'.nodes[p].id == p
    requires forall p :: p in Q ==> p in s'.nodes[i].next && p in s'.nodes[i].matched
    ensures Pushed(s', i, lead, Q, todo - {q})
  {
    forall p | p in Q && p != i && p !in todo - {q} ensures Replicated(s'.nodes[i], s'.nodes[p]) {
      if p != q {
        assert Replicated(s.nodes[i], s.nodes[p]);
        assert Slot(s'.nodes[i].next, p) == Slot(s.nodes[i].next, p);
        assert Slot(s'.nodes[i].matched, p) == Slot(s.nodes[i].matched, p);
      }
    }
  }

  lemma NodesAreSane(r: Run, i: nat, Q: set<nat>)
    requires IsRun(r) && Q <= Last(r).nodes.Keys && i in Last(r).nodes
    ensures Last(r).nodes.Keys == r.peers
    ensures forall p :: p in Q ==> Sane(Last(r).nodes[p], p, r.peers)
    ensures Last(r).nodes[i].role == Leader ==>
      Last(r).nodes[i].matched.Keys == r.peers && forall p :: p in Q ==> SlotSane(Last(r).nodes[i], p)
  {
    RunKeepsInv(r, |r.steps|);
    NodeIsSane(Last(r), i);
    forall p | p in Q ensures Sane(Last(r).nodes[p], p, r.peers) { NodeIsSane(Last(r), p); }
  }

  lemma PushedOnRun(r: Run, r1: Run, i: nat, q: nat, t: nat, lead: seq<Entry>, Q: set<nat>, todo: set<nat>)
    requires IsRun(r) && IsRun(r1) && Leads(Last(r), i, t, lead, Q) && Leads(Last(r1), i, t, lead, Q)
    requires SameBut(Last(r), Last(r1), i, q) && Pushed(Last(r), i, lead, Q, todo) && q in todo
    requires Replicated(Last(r1).nodes[i], Last(r1).nodes[q])
    ensures Pushed(Last(r1), i, lead, Q, todo - {q})
  {
    NodesAreSane(r, i, Q);
    NodesAreSane(r1, i, Q);
    assert forall p :: p in Q ==> SlotSane(Last(r1).nodes[i], p);
    PushedOn(Last(r), Last(r1), i, q, t, lead, Q, todo);
  }

  /** The whole of Q holds the log, and if they are enough the leader has committed it. */
  lemma {:induction false} PushAll(r: Run, i: nat, todo: set<nat>, Q: set<nat>, t: nat, lead: seq<Entry>)
    returns (r': Run)
    requires IsRun(r) && Leads(Last(r), i, t, lead, Q) && Pushed(Last(r), i, lead, Q, todo)
    requires todo == {} ==> CommitsIfEnough(Last(r).nodes[i], Q)
    ensures Continues(r, r', Q) && Leads(Last(r'), i, t, lead, Q) && Pushed(Last(r'), i, lead, Q, {})
    ensures CommitsIfEnough(Last(r').nodes[i], Q)
    decreases todo
  {
    if todo == {} {
      r' := r;
    } else {
      var q :| q in todo;
      var r1 := Push(r, i, q, Q, t, lead);
      PushedOnRun(r, r1, i, q, t, lead, Q, todo);
      r' := PushAll(r1, i, todo - {q}, Q, t, lead);
      ContinuesTransitive(r, r1, r', Q);
    }
  }

  /** Node q has applied the whole of `lead`. */
  ghost predicate HasApplied(n: Node, lead: seq<Entry>) {
    n.applied >= |lead| && Agree(n.log, lead, |lead|)
  }

  /** The leader has committed its log, and every node of Q has applied it but those still to be told. */
  ghost predicate Told(s: Cluster, i: nat, lead: seq<Entry>, Q: set<nat>, todo: set<nat>)
    requires i in s.nodes && Q <= s.nodes.Keys
  {
    && s.nodes[i].commit == |lead| && todo <= Q - {i}
    && (forall q :: q in todo ==> Replicated(s.nodes[i], s.nodes[q]))
    && (forall q :: q in Q && q !in todo ==> HasApplied(s.nodes[q], lead))
  }

  lemma Tell(r: Run, i: nat, q: nat, todo: set<nat>, Q: set<nat>, t: nat, lead: seq<Entry>) returns (r': Run)
    requires IsRun(r) && Leads(Last(r), i, t, lead, Q) && Told(Last(r), i, lead, Q, todo) && q in todo
    ensures Continues(r, r', Q) && Leads(Last(r'), i, t, lead, Q) && Told(Last(r'), i, lead, Q, todo - {q})
  {
    NodesAreSane(r, i, Q);
    var r1, p := Send(r, i, q, Q);
    HeartbeatTells(Last(r).nodes[i], Last(r).nodes[q], p.args);
    var r2, _ := Deliver(r1, p, Q);
    ContinuesTransitive(r, r1, r2, Q);
    r' := r2;
  }

  lemma {:induction false} TellAll(r: Run, i: nat, todo: set<nat>, Q: set<nat>, t: nat, lead: seq<Entry>)
    returns (r': Run)
    requires IsRun(r) && Leads(Last(r), i, t, lead, Q) && Told(Last(r), i, lead, Q, todo)
    ensures Continues(r, r', Q) && Leads(Last(r'), i, t, lead, Q) && Told(Last(r'), i, lead, Q, {})
    decreases todo
  {
    if todo == {} {
      r' := r;
    } else {
      var q :| q in todo;
      var r1 := Tell(r, i, q, todo, Q, t, lead);
      r' := TellAll(r1, i, todo - {q}, Q, t, lead);
      ContinuesTransitive(r, r1, r', Q);
    }
  }

  // ---- The election ----

  /** The candidate's log is at least as up to date as the voter's. */
  ghost predicate MayElect(c: Node, v: Node) {
    AsUpToDate(VoteRequest(c).lastTerm, VoteRequest(c).lastIndex, v)
  }

  lemma SameClaim(c: Node, c': Node, v: Node)
    requires c'.log == c.log && MayElect(c, v)
    ensures MayElect(c', v)
  {
  }

  lemma MayElectTransitive(a: Node, b: Node, c: Node)
    requires a.offset == 0 && b.offset == 0 && c.offset == 0
    requires Contiguous(a.log, 0) && Contiguous(b.log, 0) && Contiguous(c.log, 0)
    requires MayElect(a, b) && MayElect(b, c)
    ensures MayElect(a, c)
  {
  }

  lemma MayElectTotal(a: Node, b: Node)
    requires a.offset == 0 && b.offset == 0 && Contiguous(a.log, 0) && Contiguous(b.log, 0)
    ensures MayElect(a, b) || MayElect(b, a)
  {
  }

  /** Some node of Q may be elected by all of Q. */
  lemma {:induction false} Best(nodes: map<nat, Node>, Q: set<nat>) returns (i: nat)
    requires Q != {} && Q <= nodes.Keys
    requires forall q :: q in Q ==> nodes[q].offset == 0 && Contiguous(nodes[q].log, 0)
    ensures i in Q && forall q :: q in Q ==> MayElect(nodes[i], nodes[q])
  {
    var x :| x in Q;
    MayElectTotal(nodes[x], nodes[x]);
    if Q == {x} {
      i := x;
    } else {
      var j := Best(nodes, Q - {x});
      MayElectTotal(nodes[x], nodes[j]);
      i := if MayElect(nodes[x], nodes[j]) then x else j;
      forall q | q in Q ensures MayElect(nodes[i], nodes[q]) {
        if q != x && i == x { MayElectTransitive(nodes[x], nodes[j], nodes[q]); }
      }
    }
  }

  /** Candidate i of term t, one short of a majority at most by the votes of `todo`, who are all behind that
      term and have been asked. */
  ghost predicate Standing(s: Cluster, i: nat, t: nat, log: seq<Entry>, Q: set<nat>, todo: set<nat>) {
    && Q <= s.nodes.Keys && i in Q && todo <= Q - {i}
    && s.nodes[i].role == Candidate && s.nodes[i].term == t && s.nodes[i].log == log
    && s.nodes[i].votes < Majority(s.nodes[i].peers) <= s.nodes[i].votes + |todo|
    && (forall q :: q in Q ==> s.nodes[q].term <= t)
    && (forall q :: q in todo ==> WillVote(s, i, t, q))
  }

  ghost predicate WillVote(s: Cluster, i: nat, t: nat, q: nat)
    requires i in s.nodes && q in s.nodes
  {
    && s.nodes[q].term < t && MayElect(s.nodes[i], s.nodes[q])
    && PollKey(i, t, q) in s.polls && s.polls[PollKey(i, t, q)] == Asked(VoteRequest(s.nodes[i]))
    && VoteRequest(s.nodes[i]).term == t && VoteRequest(s.nodes[i]).candidate == i
  }

  /** The log of a leader just elected. */
  function WithNoOp(log: seq<Entry>, t: nat): seq<Entry> {
    log + [Entry(t, |log| + 1, NO_OP)]
  }

  /** A node that is asked grants its vote and stays up to the candidate's term. */
  lemma Vote(r: Run, i: nat, q: nat, t: nat, Q: set<nat>) returns (r': Run)
    requires IsRun(r) && i in Last(r).nodes && q in Last(r).nodes && q in Q && WillVote(Last(r), i, t, q)
    ensures Continues(r, r', Q)
    ensures var v := Last(r).nodes[q].(term := t, role := Follower, votedFor := Some(i));
      && Last(r').nodes == Last(r).nodes[q := v]
      && Last(r').polls == Last(r).polls[PollKey(i, t, q) := Answered(VoteReply(t, true))]
  {
    var s, k := Last(r), PollKey(i, t, q);
    VoteAnswer(s.nodes[q], s.polls[k].args);
    AfterVote(s, k);
    r' := Act(r, AnswerVote(k), Q);
  }

  lemma Count(r: Run, i: nat, q: nat, t: nat, Q: set<nat>) returns (r': Run)
    requires IsRun(r) && i in Last(r).nodes && i in Q
    requires Last(r).nodes[i].role == Candidate && Last(r).nodes[i].term == t
    requires PollKey(i, t, q) in Last(r).polls && Last(r).polls[PollKey(i, t, q)] == Answered(VoteReply(t, true))
    ensures Continues(r, r', Q)
    ensures Last(r').nodes == Last(r).nodes[i := HandleVoteReply(Last(r).nodes[i], VoteReply(t, true))]
    ensures Last(r').polls == Last(r).polls - {PollKey(i, t, q)}
  {
    AfterCount(Last(r), PollKey(i, t, q));
    r' := Act(r, CountVote(PollKey(i, t, q)), Q);
  }

  /** What the vote of q makes of the election. */
  lemma VoteMoves(s: Cluster, s': Cluster, i: nat, t: nat, log: seq<Entry>, Q: set<nat>, todo: set<nat>, q: nat)
    requires Standing(s, i, t, log, Q, todo) && q in todo && s.nodes[i].offset == 0 && Contiguous(log, 0)
    requires var v := s.nodes[q].(term := t, role := Follower, votedFor := Some(i));
      s'.nodes == s.nodes[q := v][i := HandleVoteReply(s.nodes[i], VoteReply(t, true))]
    requires s'.polls == s.polls[PollKey(i, t, q) := Answered(VoteReply(t, true))] - {PollKey(i, t, q)}
    ensures Leads(s', i, t, WithNoOp(log, t), Q) || Standing(s', i, t, log, Q, todo - {q})
  {
    VoteCounted(s.nodes[i], VoteReply(t, true));
    if s'.nodes[i].role == Leader {
      VoteElects(s, s', i, t, log, Q);
    } else {
      forall p | p in todo - {q} ensures WillVote(s', i, t, p) { assert WillVote(s, i, t, p); }
    }
  }

  lemma VoteElects(s: Cluster, s': Cluster, i: nat, t: nat, log: seq<Entry>, Q: set<nat>)
    requires Q <= s'.nodes.Keys && i in Q && i in s.nodes && s.nodes[i].offset == 0 && Contiguous(log, 0)
    requires s.nodes[i].role == Candidate && s.nodes[i].term == t && s.nodes[i].log == log
    requires s'.nodes[i] == HandleVoteReply(s.nodes[i], VoteReply(t, true)) && s'.nodes[i].role == Leader
    requires forall p :: p in Q ==> s'.nodes[p].term <= t
    ensures Leads(s', i, t, WithNoOp(log, t), Q)
  {
    VoteCounted(s.nodes[i], VoteReply(t, true));
  }

  lemma {:induction false} Win(r: Run, i: nat, t: nat, log: seq<Entry>, Q: set<nat>, todo: set<nat>) returns (r': Run)
    requires IsRun(r) && Standing(Last(r), i, t, log, Q, todo)
    ensures Continues(r, r', Q) && Leads(Last(r'), i, t, WithNoOp(log, t), Q)
    decreases todo
  {
    assert todo != {};
    var q :| q in todo;
    NodesAreSane(r, i, Q);
    assert WillVote(Last(r), i, t, q);
    var r1 := Vote(r, i, q, t, Q);
    var r2 := Count(r1, i, q, t, Q);
    ContinuesTransitive(r, r1, r2, Q);
    VoteMoves(Last(r), Last(r2), i, t, log, Q, todo, q);
    if Leads(Last(r2), i, t, WithNoOp(log, t), Q) {
      r' := r2;
    } else {
      r' := Win(r2, i, t, log, Q, todo - {q});
      ContinuesTransitive(r, r2, r', Q);
    }
  }

  /** Timeouts until the term is above t: nothing changes but the candidate and the polls. */
  lemma {:induction false} Stand(r: Run, i: nat, t: nat, Q: set<nat>) returns (r': Run)
    requires IsRun(r) && i in Last(r).nodes && i in Q && Last(r).nodes[i].role != Leader
    ensures Continues(r, r', Q) && i in Last(r').nodes
    ensures var c := Last(r').nodes[i];
      && Last(r').nodes == Last(r).nodes[i := c] && c.term > t && c.role == Candidate && c.votes == 1
      && c.log == Last(r).nodes[i].log && c.peers == Last(r).nodes[i].peers
      && forall p :: p in c.peers && p != i ==>
           PollKey(i, c.term, p) in Last(r').polls && Last(r').polls[PollKey(i, c.term, p)] == Asked(VoteRequest(c))
    decreases t - Last(r).nodes[i].term
  {
    var r1 := Act(r, Timeout(i), Q);
    if Last(r1).nodes[i].term > t {
      r' := r1;
    } else {
      r' := Stand(r1, i, t, Q);
      ContinuesTransitive(r, r1, r', Q);
    }
  }

  lemma {:induction false} LatestTerm(nodes: map<nat, Node>, Q: set<nat>) returns (t: nat)
    requires Q <= nodes.Keys
    ensures forall q :: q in Q ==> nodes[q].term <= t
  {
    t := 0;
    if Q != {} {
      var x :| x in Q;
      t := LatestTerm(nodes, Q - {x});
      t := Later(t, nodes[x].term);
    }
  }

  lemma EnoughIsMajority(peers: set<nat>, Q: set<nat>, i: nat)
    requires Q <= peers && Enough(peers, Q) && i in Q
    ensures 1 < Majority(peers) <= |Q| == 1 + |Q - {i}|
  {
    SubsetSize(Q, peers);
  }

  /** A node that all of Q may elect is elected. */
  lemma Elect(r: Run, i: nat, Q: set<nat>) returns (r': Run, t: nat)
    requires IsRun(r) && Q <= r.peers == Last(r).nodes.Keys && Enough(r.peers, Q) && i in Q
    requires Last(r).nodes[i].role != Leader
    requires forall q :: q in Q ==> MayElect(Last(r).nodes[i], Last(r).nodes[q])
    ensures Continues(r, r', Q) && Leads(Last(r'), i, t, WithNoOp(Last(r).nodes[i].log, t), Q)
  {
    NodesAreSane(r, i, Q);
    EnoughIsMajority(r.peers, Q, i);
    var latest := LatestTerm(Last(r).nodes, Q);
    var r1 := Stand(r, i, latest, Q);
    t := Last(r1).nodes[i].term;
    NodesAreSane(r1, i, Q);
    forall q | q in Q - {i} ensures WillVote(Last(r1), i, t, q) {
      SameClaim(Last(r).nodes[i], Last(r1).nodes[i], Last(r).nodes[q]);
    }
    assert Standing(Last(r1), i, t, Last(r).nodes[i].log, Q, Q - {i});
    r' := Win(r1, i, t, Last(r).nodes[i].log, Q, Q - {i});
    ContinuesTransitive(r, r1, r', Q);
  }

  /** A leader that another node is ahead of learns it from that node's reply, and steps down. */
  lemma Depose(r: Run, i: nat, q: nat, Q: set<nat>) returns (r': Run)
    requires IsRun(r) && i in Q && q in Q && i in Last(r).nodes && q in Last(r).nodes
    requires Last(r).nodes[i].role == Leader && Last(r).nodes[q].term > Last(r).nodes[i].term
    ensures Continues(r, r', Q) && i in Last(r').nodes
    ensures var n := Last(r').nodes[i];
      Last(r').nodes == Last(r).nodes[i := n] && n.role == Follower && n.log == Last(r).nodes[i].log
  {
    var a;
    r', a := Exchange(r, i, q, Q);
    ReplyTerm(Last(r).nodes[i], q, a, AppendReply(Last(r).nodes[q].term, false, 0));
  }

  /** A leader's log ends in its term. */
  lemma LeaderEndsInTerm(r: Run, i: nat)
    requires IsRun(r) && i in Last(r).nodes && Last(r).nodes[i].role == Leader
    ensures var n := Last(r).nodes[i]; n.log != [] && n.log[|n.log| - 1].term == n.term
  {
    RunKeepsInv(r, |r.steps|);
    var n, R := Last(r).nodes[i], Last(r).past.reigns;
    assert LeaderOk(R, i, n) && ReignOk(R, n.term);
  }

  /** A leader some node is ahead of is deposed first, then elected. */
  lemma ReElect(r: Run, i: nat, q: nat, Q: set<nat>) returns (r': Run, t: nat, lead: seq<Entry>)
    requires IsRun(r) && Q <= r.peers == Last(r).nodes.Keys && Enough(r.peers, Q) && i in Q && q in Q
    requires Last(r).nodes[i].role == Leader && Last(r).nodes[q].term > Last(r).nodes[i].term
    requires forall p :: p in Q ==> MayElect(Last(r).nodes[i], Last(r).nodes[p])
    ensures Continues(r, r', Q) && Leads(Last(r'), i, t, lead, Q)
  {
    var r1 := Depose(r, i, q, Q);
    NodesAreSane(r, i, Q);
    NodesAreSane(r1, i, Q);
    var n, n' := Last(r).nodes[i], Last(r1).nodes[i];
    forall p | p in Q ensures MayElect(n', Last(r1).nodes[p]) {
      SameClaim(n, n', Last(r).nodes[p]);
      if p == i { SameVoter(n', n, n'); }
    }
    r', t := Elect(r1, i, Q);
    lead := WithNoOp(n'.log, t);
    ContinuesTransitive(r, r1, r', Q);
  }

  lemma SameVoter(c: Node, v: Node, v': Node)
    requires v'.log == v.log && v'.offset == v.offset && MayElect(c, v)
    ensures MayElect(c, v')
  {
  }

  /** Some node of Q comes to lead, with no node of Q ahead of it. */
  lemma SomeoneLeads(r: Run, Q: set<nat>) returns (r': Run, i: nat, t: nat, lead: seq<Entry>)
    requires IsRun(r) && Q <= r.peers && Enough(r.peers, Q)
    ensures Continues(r, r', Q) && Leads(Last(r'), i, t, lead, Q)
  {
    RunKeepsInv(r, |r.steps|);
    var any :| any in Q;
    NodesAreSane(r, any, Q);
    i := Best(Last(r).nodes, Q);
    if Last(r).nodes[i].role != Leader {
      r', t := Elect(r, i, Q);
      lead := WithNoOp(Last(r).nodes[i].log, t);
    } else if q :| q in Q && Last(r).nodes[q].term > Last(r).nodes[i].term {
      r', t, lead := ReElect(r, i, q, Q);
    } else {
      LeaderEndsInTerm(r, i);
      r', t, lead := r, Last(r).nodes[i].term, Last(r).nodes[i].log;
    }
  }

  // ---- The theorem ----

  /** Step k of the run is a client's command taken by a leader as entry e. */
  ghost predicate Proposed(r: Run, k: nat, data: Bytes, e: Entry) {
    && k < |r.steps| && k < |r.states| && r.steps[k].ClientProposal? && r.steps[k].data == data
    && r.steps[k].node in r.states[k].nodes && e == Proposal(r.states[k].nodes[r.steps[k].node], data)
  }

  ghost predicate AppliedEntry(n: Node, e: Entry) {
    0 < e.index <= n.applied && e.index <= |n.log| && n.log[e.index - 1] == e
  }

  lemma Take(r: Run, i: nat, t: nat, lead: seq<Entry>, Q: set<nat>, data: Bytes)
    returns (r': Run, e: Entry)
    requires IsRun(r) && Leads(Last(r), i, t, lead, Q) && Q <= r.peers
    ensures Continues(r, r', Q) && Proposed(r', |r.steps|, data, e) && e == Entry(t, |lead| + 1, data)
    ensures Leads(Last(r'), i, t, lead + [e], Q) && Pushed(Last(r'), i, lead + [e], Q, Q - {i})
  {
    NodesAreSane(r, i, Q);
    assert forall p :: p in Q ==> SlotSane(Last(r).nodes[i], p);
    e := Proposal(Last(r).nodes[i], data);
    AfterProposal(Last(r), i, data);
    r' := Act(r, ClientProposal(i, data), Q);
    assert r'.states[|r.steps|] == Last(r);
  }

  lemma AllReplicated(r: Run, i: nat, t: nat, lead: seq<Entry>, Q: set<nat>)
    requires IsRun(r) && Leads(Last(r), i, t, lead, Q) && Pushed(Last(r), i, lead, Q, {})
    requires Enough(r.peers, Q) && CommitsIfEnough(Last(r).nodes[i], Q)
    ensures Told(Last(r), i, lead, Q, Q - {i})
  {
    NodesAreSane(r, i, Q);
    forall p | p in Q && p != i
      ensures p in Last(r).nodes[i].matched && Last(r).nodes[i].matched[p] == |lead|
    {
      assert Replicated(Last(r).nodes[i], Last(r).nodes[p]);
    }
  }

  /** From every reachable state, whatever is in flight and whoever leads: if more than half of N + 1 nodes are
      up, there is a way on in which only they act, a client's command is taken by a leader, and every one of
      them applies it. */
  lemma EnoughCanWrite(r: Run, Q: set<nat>, data: Bytes) returns (r': Run, k: nat, e: Entry)
    requires IsRun(r) && Q <= r.peers && Enough(r.peers, Q)
    ensures Continues(r, r', Q) && |r.steps| <= k && Proposed(r', k, data, e)
    ensures Q <= Last(r').nodes.Keys && forall q :: q in Q ==> AppliedEntry(Last(r').nodes[q], e)
  {
    var r1, i, t, lead := SomeoneLeads(r, Q);
    var r2;
    r2, e := Take(r1, i, t, lead, Q, data);
    k := |r1.steps|;
    r' := SpreadLog(r2, i, t, lead, e, Q);
    StillProposed(r2, r', k, data, e);
    ContinuesTransitive(r, r1, r2, Q);
    ContinuesTransitive(r, r2, r', Q);
  }

  lemma SpreadLog(r: Run, i: nat, t: nat, lead: seq<Entry>, e: Entry, Q: set<nat>) returns (r': Run)
    requires IsRun(r) && Q <= r.peers && Enough(r.peers, Q) && e.index == |lead| + 1
    requires Leads(Last(r), i, t, lead + [e], Q) && Pushed(Last(r), i, lead + [e], Q, Q - {i})
    ensures Continues(r, r', Q)
    ensures Q <= Last(r').nodes.Keys && forall q :: q in Q ==> AppliedEntry(Last(r').nodes[q], e)
  {
    EnoughIsMajority(r.peers, Q, i);
    var r1 := PushAll(r, i, Q - {i}, Q, t, lead + [e]);
    AllReplicated(r1, i, t, lead + [e], Q);
    r' := TellAll(r1, i, Q - {i}, Q, t, lead + [e]);
    ContinuesTransitive(r, r1, r', Q);
    forall q | q in Q ensures AppliedEntry(Last(r').nodes[q], e) {
      AgreeAtPosition(Last(r').nodes[q].log, lead + [e], |lead| + 1, |lead|);
    }
  }

  lemma StillProposed(r: Run, r': Run, k: nat, data: Bytes, e: Entry)
    requires Proposed(r, k, data, e) && r.steps <= r'.steps && r.states <= r'.states
    ensures Proposed(r', k, data, e)
  {
  }
}
