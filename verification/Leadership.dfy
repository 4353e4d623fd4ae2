/** Winning an election, and appending to a leader's own log, keep the invariant. */
module Leadership {
  import opened Common
  import opened Quorums
  import opened RaftNode
  import opened Replication
  import opened Clusters
  import opened Invariants
  import opened Growth
  import opened Elections

  /** A candidate with a majority of votes is the first leader of its term: two majorities share a voter, who
      voted once. */
  lemma TermIsNew(nodes: map<nat, Node>, reigns: Reigns, ballots: map<Seat, Ballot>, i: nat, votes: set<nat>)
    requires RollsOk(nodes.Keys, reigns, ballots) && OwnersOk(nodes, reigns)
    requires i in nodes && nodes[i].role == Candidate && IsQuorum(nodes.Keys, votes)
    requires forall q :: q in votes ==> VotedFor(ballots, Seat(q, nodes[i].term), i)
    ensures nodes[i].term !in reigns
  {
    var t := nodes[i].term;
    if t in reigns {
      assert OwnerOk(nodes, reigns, t) && RollOk(nodes.Keys, reigns, ballots, t);
      var q := QuorumsMeet(nodes.Keys, votes, reigns[t].rolls.Keys);
    }
  }

  /** The log of the leader of term t grows to n.log by entries of term t (from nothing, if it is new). */
  ghost predicate LeaderAppends(nodes: map<nat, Node>, reigns: Reigns, reigns': Reigns, acks: map<Seat, nat>,
                                acks': map<Seat, nat>, i: nat, n: Node, e: Entry) {
    && i in nodes && n.term == nodes[i].term && n.log == nodes[i].log + [e]
    && e.term == n.term && e.index == |nodes[i].log| + 1
    && n.term in reigns' && reigns' == reigns[n.term := reigns'[n.term]]
    && reigns'[n.term].leader == i && reigns'[n.term].log == n.log && reigns'[n.term].start <= |nodes[i].log|
    && (n.term in reigns ==> nodes[i].log == reigns[n.term].log && reigns'[n.term] == reigns[n.term].(log := n.log))
    && (n.term !in reigns ==> reigns'[n.term].start == |nodes[i].log|)
    && acks' == acks[Seat(i, n.term) := |n.log|]
  }

  lemma AppendGrows(nodes: map<nat, Node>, reigns: Reigns, reigns': Reigns, acks: map<Seat, nat>, acks': map<Seat, nat>,
                    i: nat, n: Node, e: Entry)
    requires LeaderAppends(nodes, reigns, reigns', acks, acks', i, n, e)
    requires AcksOk(nodes, reigns, acks)
    ensures Grows(reigns, reigns') && AckStep(acks, acks', i, n.term)
  {
    forall t | t in reigns ensures GrowsAt(reigns, reigns', t) {
      if t == n.term { assert n.log[..|reigns[t].log|] == reigns[t].log; }
      else { assert reigns[t].log[..|reigns[t].log|] == reigns[t].log; }
    }
    AckedInReign(nodes, reigns, acks, i, n.term);
  }

  lemma AppendReigns(nodes: map<nat, Node>, reigns: Reigns, reigns': Reigns, acks: map<Seat, nat>,
                     acks': map<Seat, nat>,
                     i: nat, n: Node, e: Entry)
    requires LeaderAppends(nodes, reigns, reigns', acks, acks', i, n, e) && Grows(reigns, reigns')
    requires ReignsOk(reigns) && LogsOk(nodes, reigns)
    ensures ReignsOk(reigns') && LogOk(reigns', n)
  {
    var was := nodes[i].log;
    assert LogOk(reigns, nodes[i]);
    JustifiedLog(reigns, was);
    JustifiedGrows(reigns, reigns', was);
    forall k | 0 <= k < |n.log| ensures JustifiedAt(reigns', n.log, k) {
      if k < |was| {
        assert JustifiedAt(reigns', was, k);
        assert n.log[..k + 1] == was[..k + 1];
      }
    }
    forall t | t in reigns' ensures ReignOk(reigns', t) {
      if t in reigns { assert ReignOk(reigns, t); }
      if t != n.term { JustifiedGrows(reigns, reigns', reigns[t].log); }
      else if t !in reigns {
        forall k | 0 <= k < |was| ensures n.log[k].term < t { assert JustifiedAt(reigns, was, k); }
      }
    }
  }

  lemma AppendRetains(nodes: map<nat, Node>, reigns: Reigns, reigns': Reigns, acks: map<Seat, nat>,
                      acks': map<Seat, nat>,
                      i: nat, n: Node, e: Entry)
    requires LeaderAppends(nodes, reigns, reigns', acks, acks', i, n, e)
    requires Grows(reigns, reigns') && AckStep(acks, acks', i, n.term)
    requires ReignsOk(reigns) && AcksOk(nodes, reigns, acks) && NodesRetain(nodes, reigns, acks)
    ensures NodesRetain(nodes[i := n], reigns', acks')
  {
    var was := nodes[i].log;
    forall T | T in reigns' ensures Retains(reigns', acks', i, n.log, T, n.term) {
      if T != n.term {
        assert Retains(reigns, acks, i, was, T, n.term);
        AckedInReign(nodes, reigns, acks, i, T);
        RetainsGrows(reigns, reigns', acks, acks', i, was, T, n.term, n.term);
        forall m: nat | m <= Acked(acks', i, T) ensures Kept(reigns', n.log, T, m, n.term) {
          assert Kept(reigns', was, T, m, n.term);
          if Agree(was, reigns'[T].log, m) { assert n.log[..m] == was[..m]; }
        }
      } else {
        assert forall m: nat :: m <= Acked(acks', i, T) ==> Agree(n.log, reigns'[T].log, m);
      }
    }
    NodesRetainUpdate(nodes, i, n, reigns, reigns', acks, acks');
  }

  lemma AppendAcks(nodes: map<nat, Node>, reigns: Reigns, reigns': Reigns, acks: map<Seat, nat>, acks': map<Seat, nat>,
                   i: nat, n: Node, e: Entry)
    requires LeaderAppends(nodes, reigns, reigns', acks, acks', i, n, e) && Grows(reigns, reigns')
    requires AcksOk(nodes, reigns, acks)
    requires n.term in reigns ==> reigns[n.term].leader == i
    ensures AcksOk(nodes[i := n], reigns', acks')
  {
    forall seat | seat in acks' ensures AckOk(nodes[i := n], reigns', acks', seat) {
      if seat in acks {
        assert AckOk(nodes, reigns, acks, seat);
        assert GrowsAt(reigns, reigns', seat.term);
      }
    }
    forall t | t in reigns' ensures OwnAck(reigns', acks', t) {
      if t != n.term { assert OwnAck(reigns, acks, t); }
    }
  }

  /** The log half of the invariant, for both ways a leader's own log grows. */
  lemma AppendKeepsLogs(nodes: map<nat, Node>, ballots: map<Seat, Ballot>, polls: map<PollKey, Poll>,
                        counted: map<nat, set<nat>>,
                        reigns: Reigns, reigns': Reigns, acks: map<Seat, nat>, acks': map<Seat, nat>,
                        parcels: set<Parcel>, answers: set<Answer>, i: nat, n: Node, e: Entry)
    requires LogInv(nodes, reigns, acks, parcels, answers) && VoteInv(nodes, polls, reigns, ballots, counted)
    requires BallotsRetain(ballots, reigns, acks)
    requires LeaderAppends(nodes, reigns, reigns', acks, acks', i, n, e)
    requires n.role == Leader && NodeShape(nodes.Keys, i, n)
    requires n.commit == nodes[i].commit && n.applied == nodes[i].applied && n.kv == nodes[i].kv
    requires n.term in reigns ==> reigns[n.term].leader == i
    requires BookkeepingOk(nodes.Keys, n, acks')
    requires n.term !in reigns ==> forall q, T :: q in reigns'[n.term].rolls && T in reigns' && T < n.term ==>
                                                  RollRetains(reigns', acks', n.term, q, T)
    ensures LogInv(nodes[i := n], reigns', acks', parcels, answers)
    ensures BallotsRetain(ballots, reigns', acks')
  {
    var nodes' := nodes[i := n];
    assert nodes'.Keys == nodes.Keys;
    AppendGrows(nodes, reigns, reigns', acks, acks', i, n, e);
    AppendReigns(nodes, reigns, reigns', acks, acks', i, n, e);
    LogsUpdate(nodes, i, n, reigns, reigns');
    forall j | j in nodes ensures NodeShape(nodes.Keys, j, nodes'[j]) { assert NodeShape(nodes.Keys, j, nodes[j]); }
    AppendLeaders(nodes, reigns, reigns', acks, acks', i, n, e);
    AppendAcks(nodes, reigns, reigns', acks, acks', i, n, e);
    AppendRetains(nodes, reigns, reigns', acks, acks', i, n, e);
    BallotsRetainUpdate(nodes, ballots, i, n.term, reigns, reigns', acks, acks');
    RollsRetainUpdate(nodes, ballots, i, n.term, reigns, reigns', acks, acks');
    assert NodeCommits(nodes.Keys, nodes[i], reigns, acks);
    assert nodes[i].log[..nodes[i].commit] == n.log[..n.commit];
    assert nodes[i].log[..nodes[i].applied] == n.log[..n.applied];
    SameCommits(nodes.Keys, nodes[i], n, i, n.term, reigns, reigns', acks, acks');
    CommitsUpdate(nodes, i, n, n.term, reigns, reigns', acks, acks');
    ParcelsUpdate(nodes.Keys, parcels, i, n.term, reigns, reigns', acks, acks');
    AnswersUpdate(parcels, answers, i, n.term, acks, acks');
    BooksUpdate(nodes, i, n, n.term, acks, acks');
  }

  lemma AppendLeaders(nodes: map<nat, Node>, reigns: Reigns, reigns': Reigns, acks: map<Seat, nat>,
                      acks': map<Seat, nat>,
                      i: nat, n: Node, e: Entry)
    requires LeaderAppends(nodes, reigns, reigns', acks, acks', i, n, e)
    requires LeadersOk(nodes, reigns) && OwnersOk(nodes, reigns) && n.role == Leader
    requires n.term in reigns ==> reigns[n.term].leader == i
    ensures LeadersOk(nodes[i := n], reigns') && OwnersOk(nodes[i := n], reigns')
  {
    forall j | j in nodes ensures LeaderOk(reigns', j, nodes[i := n][j]) { assert LeaderOk(reigns, j, nodes[j]); }
    forall t | t in reigns' ensures OwnerOk(nodes[i := n], reigns', t) {
      if t in reigns { assert OwnerOk(nodes, reigns, t); }
    }
  }

  // ---- Propose ----

  lemma ProposeKeepsInv(s: Cluster, i: nat, data: Bytes)
    requires Inv(s) && Enabled(s, ClientProposal(i, data))
    ensures Inv(DoPropose(s, i, data))
  {
    var h, h' := s.past, DoPropose(s, i, data).past;
    var n0, n := s.nodes[i], Propose(s.nodes[i], data);
    assert LeaderOk(h.reigns, i, n0) && NodeShape(s.nodes.Keys, i, n0) && LogOk(h.reigns, n0);
    assert ReignOk(h.reigns, n.term) && GrowsAt(h.reigns, h.reigns, n.term) by { GrowsRefl(h.reigns); }
    JustifiedLog(h.reigns, n0.log);
    VoteClaim(n0);
    ProposeBooks(s.nodes.Keys, n0, n, h.reigns, h.acks, h'.acks, i, Proposal(n0, data)) by {
      assert BookkeepingOk(s.nodes.Keys, n0, h.acks);
    }
    AppendKeepsLogs(s.nodes, h.ballots, s.polls, h.counted, h.reigns, h'.reigns, h.acks, h'.acks, s.parcels, s.answers,
                    i, n, Proposal(n0, data));
    AppendGrows(s.nodes, h.reigns, h'.reigns, h.acks, h'.acks, i, n, Proposal(n0, data));
    SameVotes(s.nodes, s.polls, h.reigns, h'.reigns, h.ballots, h.counted, i, n);
  }

  lemma ProposeBooks(peers: set<nat>, n0: Node, n: Node, reigns: Reigns, acks: map<Seat, nat>, acks': map<Seat, nat>,
                     i: nat, e: Entry)
    requires BookkeepingOk(peers, n0, acks) && n == n0.(log := n0.log + [e]) && i == n.id
    requires acks' == acks[Seat(i, n.term) := |n.log|]
    ensures BookkeepingOk(peers, n, acks')
  {
    forall p | n.role == Leader && p in peers ensures BookOk(n, acks', p) { assert BookOk(n0, acks, p); }
  }

  /** The vote half of the invariant when a node that is not a candidate changes and keeps its vote. */
  lemma SameVotes(nodes: map<nat, Node>, polls: map<PollKey, Poll>, reigns: Reigns, reigns': Reigns,
                  ballots: map<Seat, Ballot>,
                  counted: map<nat, set<nat>>, i: nat, n: Node)
    requires VoteInv(nodes, polls, reigns, ballots, counted) && i in nodes && Grows(reigns, reigns')
    requires forall t :: t in reigns' ==> t in reigns
    requires n.term >= nodes[i].term && n.role != Candidate
    requires n.votedFor == if n.term > nodes[i].term then None else nodes[i].votedFor
    ensures VoteInv(nodes[i := n], polls, reigns', ballots, counted)
  {
    var nodes' := nodes[i := n];
    assert nodes'.Keys == nodes.Keys;
    BallotsGrow(nodes, reigns, reigns', ballots);
    BallotsStay(nodes, nodes', reigns', ballots);
    PollsStay(nodes, nodes', ballots, ballots, polls);
    assert VoteOk(ballots, i, nodes[i]);
    NoBallotYet(nodes, reigns, ballots, i, n.term);
    OtherVotes(nodes, i, n, ballots, ballots);
    OtherTallies(nodes, i, n, ballots, ballots, polls, polls, counted, counted);
    RollsUpdate(nodes.Keys, reigns, reigns', ballots, ballots);
  }

  // ---- Winning ----

  /** The new leader's voters keep what they had confirmed; no leader of the new term interfered. */
  lemma NewRollsRetain(reigns: Reigns, reigns': Reigns, ballots: map<Seat, Ballot>, acks: map<Seat, nat>,
                       acks': map<Seat, nat>,
                       nodes: map<nat, Node>, i: nat, U: nat, q: nat, T: nat)
    requires ReignsOk(reigns) && Grows(reigns, reigns') && AckStep(acks, acks', i, U) && AcksOk(nodes, reigns, acks)
    requires BallotsRetain(ballots, reigns, acks) && U !in reigns && U in reigns'
    requires Seat(q, U) in ballots && q in reigns'[U].rolls && reigns'[U].rolls[q] == ballots[Seat(q, U)].voterLog
    requires T in reigns' && T < U && (T in reigns || T == U)
    ensures RollRetains(reigns', acks', U, q, T)
  {
    var log := ballots[Seat(q, U)].voterLog;
    assert Retains(reigns, acks, Seat(q, U).node, ballots[Seat(q, U)].voterLog, T, Seat(q, U).term);
    AckedInReign(nodes, reigns, acks, q, T);
    var u: nat := U - 1;
    forall m: nat | m <= Acked(acks', q, T) ensures Kept(reigns', log, T, m, u) {
      assert Kept(reigns, log, T, m, U);
      assert Kept(reigns, log, T, m, u);
      KeptGrows(reigns, reigns', log, T, m, u, u);
    }
  }

  lemma NewRollOk(nodes: map<nat, Node>, reigns: Reigns, reigns': Reigns, ballots: map<Seat, Ballot>, i: nat, n: Node,
                  votes: set<nat>)
    requires BallotsOk(nodes, reigns, ballots) && Grows(reigns, reigns')
    requires i in nodes && nodes[i].role == Candidate && IsQuorum(nodes.Keys, votes) && n.term == nodes[i].term
    requires forall q :: q in votes ==> VotedFor(ballots, Seat(q, n.term), i)
    requires n.term in reigns' && n.log != [] && nodes[i].log == n.log[..|n.log| - 1]
    requires reigns'[n.term] ==
      Reign(i, n.log, |nodes[i].log|,
            map q | q in votes && Seat(q, n.term) in ballots :: ballots[Seat(q, n.term)].voterLog)
    ensures RollOk(nodes.Keys, reigns', ballots, n.term)
  {
    var r := reigns'[n.term];
    assert r.rolls.Keys == votes;
    forall q | q in votes
      ensures VotedFor(ballots, Seat(q, n.term), i) && Justified(reigns', r.rolls[q])
      ensures LogUpToDate(if r.start == 0 then 0 else r.log[r.start - 1].term, r.start, r.rolls[q])
    {
      var seat := Seat(q, n.term);
      assert VotedFor(ballots, seat, i);
      assert BallotOk(nodes, reigns, seat, ballots[seat]);
      JustifiedGrows(reigns, reigns', ballots[seat].voterLog);
    }
  }

  /** Candidate k.candidate becomes leader n with these votes. */
  ghost predicate Won(s: Cluster, k: PollKey, n: Node, votes: set<nat>)
    requires Enabled(s, CountVote(k))
  {
    var i, h, h' := k.candidate, s.past, DoCountVote(s, k).past;
    var n0 := s.nodes[i];
    && n == BecomeLeader(n0.(votes := n0.votes + 1)) && n.term == n0.term && n.term !in h.reigns
    && DoCountVote(s, k).nodes == s.nodes[i := n] && NodeShape(s.nodes.Keys, i, n)
    && IsQuorum(s.nodes.Keys, votes) && (forall q :: q in votes ==> VotedFor(h.ballots, Seat(q, n.term), i))
    && h'.counted == h.counted[i := votes] && n0.log == n.log[..|n.log| - 1]
    && h'.reigns == h.reigns[n.term := NewReign(s, i, votes, n)]
    && LeaderAppends(s.nodes, h.reigns, h'.reigns, h.acks, h'.acks, i, n, NoOp(n0))
  }

  /** The votes counted so far and this one are a majority, so the term is new. */
  lemma WinningVotes(s: Cluster, k: PollKey) returns (votes: set<nat>)
    requires Inv(s) && Enabled(s, CountVote(k))
    requires s.polls[k].reply.term <= k.term && s.polls[k].reply.granted
    requires s.nodes[k.candidate].votes + 1 >= Majority(s.nodes.Keys)
    ensures k.candidate in s.past.counted && votes == s.past.counted[k.candidate] + {k.peer}
    ensures IsQuorum(s.nodes.Keys, votes)
    ensures forall q :: q in votes ==> VotedFor(s.past.ballots, Seat(q, k.term), k.candidate)
    ensures k.term !in s.past.reigns
  {
    var i, h := k.candidate, s.past;
    assert PollOk(s.nodes, h.ballots, k, s.polls[k]);
    assert CandidateOk(s.nodes.Keys, h.ballots, s.polls, h.counted, i, s.nodes[i]);
    votes := h.counted[i] + {k.peer};
    assert |votes| == |h.counted[i]| + 1;
    TermIsNew(s.nodes, h.reigns, h.ballots, i, votes);
  }

  lemma WinState(s: Cluster, k: PollKey, n: Node, votes: set<nat>)
    requires Enabled(s, CountVote(k)) && k.candidate in s.past.counted
    requires n == HandleVoteReply(s.nodes[k.candidate], s.polls[k].reply) && n.role == Leader
    requires s.polls[k].reply.term <= s.nodes[k.candidate].term && s.polls[k].reply.granted
    requires votes == s.past.counted[k.candidate] + {k.peer}
    ensures var s' := DoCountVote(s, k);
      && s'.nodes == s.nodes[k.candidate := n] && s'.past.counted == s.past.counted[k.candidate := votes]
      && s'.past.reigns == s.past.reigns[n.term := NewReign(s, k.candidate, votes, n)]
      && s'.past.acks == s.past.acks[Seat(k.candidate, n.term) := |n.log|]
  {
  }

  lemma WinSetup(s: Cluster, k: PollKey) returns (n: Node, votes: set<nat>)
    requires Inv(s) && Enabled(s, CountVote(k))
    requires s.polls[k].reply.term <= k.term && s.polls[k].reply.granted
    requires s.nodes[k.candidate].votes + 1 >= Majority(s.nodes.Keys)
    ensures Won(s, k, n, votes)
  {
    var i := k.candidate;
    var n0 := s.nodes[i];
    votes := WinningVotes(s, k);
    assert NodeShape(s.nodes.Keys, i, n0) && LogOk(s.past.reigns, n0);
    assert n0.LastIndex() == |n0.log| by {
      JustifiedLog(s.past.reigns, n0.log);
      VoteClaim(n0);
    }
    n := BecomeLeader(n0.(votes := n0.votes + 1));
    LeaderLog(n0, n);
    WinState(s, k, n, votes);
  }

  lemma LeaderLog(n0: Node, n: Node)
    requires n == BecomeLeader(n0.(votes := n0.votes + 1)) && n0.LastIndex() == |n0.log|
    ensures n.log == n0.log + [NoOp(n0)] && n.log[..|n.log| - 1] == n0.log && NoOp(n0).index == |n0.log| + 1
    ensures n.term == n0.term && n.id == n0.id && n.peers == n0.peers && n.offset == n0.offset && n.role == Leader
    ensures n0.matched.Keys <= n0.peers ==> n.matched.Keys <= n.peers
  {
  }

  lemma WinBooks(s: Cluster, k: PollKey, n: Node, votes: set<nat>)
    requires Inv(s) && Enabled(s, CountVote(k)) && Won(s, k, n, votes)
    ensures BookkeepingOk(s.nodes.Keys, n, DoCountVote(s, k).past.acks)
  {
    var n0 := s.nodes[k.candidate];
    assert LogOk(s.past.reigns, n0) && NodeShape(s.nodes.Keys, k.candidate, n0);
    JustifiedLog(s.past.reigns, n0.log);
    VoteClaim(n0);
    forall p | p in s.nodes.Keys ensures BookOk(n, DoCountVote(s, k).past.acks, p) {}
  }

  lemma WinRetains(s: Cluster, k: PollKey, n: Node, votes: set<nat>)
    requires Inv(s) && Enabled(s, CountVote(k)) && Won(s, k, n, votes)
    ensures var h' := DoCountVote(s, k).past;
      forall q, T :: q in h'.reigns[n.term].rolls && T in h'.reigns && T < n.term ==>
        RollRetains(h'.reigns, h'.acks, n.term, q, T)
  {
    var i, h, h' := k.candidate, s.past, DoCountVote(s, k).past;
    AppendGrows(s.nodes, h.reigns, h'.reigns, h.acks, h'.acks, i, n, NoOp(s.nodes[i]));
    forall q, T | q in h'.reigns[n.term].rolls && T in h'.reigns && T < n.term
      ensures RollRetains(h'.reigns, h'.acks, n.term, q, T)
    {
      NewRollsRetain(h.reigns, h'.reigns, h.ballots, h.acks, h'.acks, s.nodes, i, n.term, q, T);
    }
  }

  lemma WinKeepsInv(s: Cluster, k: PollKey)
    requires Inv(s) && Enabled(s, CountVote(k))
    requires s.polls[k].reply.term <= k.term && s.polls[k].reply.granted
    requires s.nodes[k.candidate].votes + 1 >= Majority(s.nodes.Keys)
    ensures Inv(DoCountVote(s, k))
  {
    var i, h, h' := k.candidate, s.past, DoCountVote(s, k).past;
    var n, votes := WinSetup(s, k);
    WinBooks(s, k, n, votes);
    WinRetains(s, k, n, votes);
    AppendGrows(s.nodes, h.reigns, h'.reigns, h.acks, h'.acks, i, n, NoOp(s.nodes[i]));
    AppendKeepsLogs(s.nodes, h.ballots, s.polls, h.counted, h.reigns, h'.reigns, h.acks, h'.acks,
                    s.parcels, s.answers, i, n, NoOp(s.nodes[i]));
    NewRollOk(s.nodes, h.reigns, h'.reigns, h.ballots, i, n, votes);
    WinVotes(s.nodes, s.polls, h.reigns, h'.reigns, h.ballots, h.counted, k, n, votes);
  }

  lemma WinVotes(nodes: map<nat, Node>, polls: map<PollKey, Poll>, reigns: Reigns, reigns': Reigns,
                 ballots: map<Seat, Ballot>,
                 counted: map<nat, set<nat>>, k: PollKey, n: Node, votes: set<nat>)
    requires VoteInv(nodes, polls, reigns, ballots, counted) && k in polls && k.candidate in nodes
    requires Grows(reigns, reigns')
    requires n.term == nodes[k.candidate].term && n.role == Leader && n.votedFor == nodes[k.candidate].votedFor
    requires forall t :: t in reigns' && t !in reigns ==> RollOk(nodes.Keys, reigns', ballots, t)
    ensures VoteInv(nodes[k.candidate := n], polls - {k}, reigns', ballots, counted[k.candidate := votes])
  {
    var i := k.candidate;
    var nodes', polls' := nodes[i := n], polls - {k};
    assert nodes'.Keys == nodes.Keys;
    BallotsGrow(nodes, reigns, reigns', ballots);
    BallotsStay(nodes, nodes', reigns', ballots);
    PollsStay(nodes, nodes', ballots, ballots, polls);
    forall j | j in polls'
      ensures PollOk(nodes', ballots, j, polls'[j])
    {
      assert PollOk(nodes', ballots, j, polls[j]);
    }
    assert VoteOk(ballots, i, nodes[i]);
    OtherVotes(nodes, i, n, ballots, ballots);
    OtherTallies(nodes, i, n, ballots, ballots, polls, polls', counted, counted[i := votes]);
    RollsUpdate(nodes.Keys, reigns, reigns', ballots, ballots);
  }

  lemma CountVoteKeepsInv(s: Cluster, k: PollKey)
    requires Inv(s) && Enabled(s, CountVote(k))
    ensures Inv(DoCountVote(s, k))
  {
    var i := k.candidate;
    var h, s' := s.past, DoCountVote(s, k);
    var n0, reply := s.nodes[i], s.polls[k].reply;
    assert NodeShape(s.nodes.Keys, i, n0) && CandidateOk(s.nodes.Keys, h.ballots, s.polls, h.counted, i, n0);
    if reply.term <= k.term && reply.granted && n0.votes + 1 >= Majority(s.nodes.Keys) {
      WinKeepsInv(s, k);
    } else {
      var n := HandleVoteReply(n0, reply);
      assert n.role != Leader;
      QuietKeeps(s.nodes, h.reigns, h.acks, s.parcels, s.answers, i, n);
      assert !reply.granted ==> h.counted[i] + {} == h.counted[i];
      CountVotes(s.nodes, s.polls, h.reigns, h.ballots, h.counted, k, n, s'.past.counted);
    }
  }
}
