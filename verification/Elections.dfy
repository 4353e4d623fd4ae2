/** The steps of an election keep the invariant. */
module Elections {
  import opened Common
  import opened RaftNode
  import opened Clusters
  import opened Invariants
  import opened Growth

  /** The log stays. A node does not become a leader this way, nor a candidate of a
      term it was already in. */
  ghost predicate SameLog(n: Node, n': Node) {
    && n'.log == n.log && n'.term >= n.term
    && (n'.role == Leader ==> n.role == Leader && n'.term == n.term)
    && (n'.role == Candidate ==> n'.term > n.term || n.role == Candidate)
  }

  /** A change of term, role or vote only. */
  ghost predicate Quiet(n: Node, n': Node) {
    SameLog(n, n') && n' == n.(term := n'.term, role := n'.role, votedFor := n'.votedFor, votes := n'.votes)
  }

  lemma SameLogKeepsLogs(nodes: map<nat, Node>, reigns: Reigns, i: nat, n: Node)
    requires Shape(nodes) && LogsOk(nodes, reigns) && LeadersOk(nodes, reigns) && OwnersOk(nodes, reigns)
    requires i in nodes && SameLog(nodes[i], n) && NodeShape(nodes.Keys, i, n)
    ensures Shape(nodes[i := n]) && LogsOk(nodes[i := n], reigns) && LeadersOk(nodes[i := n], reigns)
    ensures OwnersOk(nodes[i := n], reigns)
  {
    var nodes' := nodes[i := n];
    assert nodes'.Keys == nodes.Keys;
    GrowsRefl(reigns);
    assert LogOk(reigns, nodes[i]);
    LogsUpdate(nodes, i, n, reigns, reigns);
    forall j | j in nodes ensures NodeShape(nodes.Keys, j, nodes'[j]) && LeaderOk(reigns, j, nodes'[j]) {
      assert NodeShape(nodes.Keys, j, nodes[j]) && LeaderOk(reigns, j, nodes[j]);
    }
    forall t | t in reigns ensures OwnerOk(nodes', reigns, t) { assert OwnerOk(nodes, reigns, t); }
  }

  lemma SameLogKeepsAcks(nodes: map<nat, Node>, reigns: Reigns, acks: map<Seat, nat>, i: nat, n: Node)
    requires ReignsOk(reigns) && AcksOk(nodes, reigns, acks) && NodesRetain(nodes, reigns, acks)
    requires i in nodes && SameLog(nodes[i], n)
    ensures AcksOk(nodes[i := n], reigns, acks) && NodesRetain(nodes[i := n], reigns, acks)
  {
    GrowsRefl(reigns);
    forall seat | seat in acks
      ensures AckOk(nodes[i := n], reigns, acks, seat)
    {
      assert AckOk(nodes, reigns, acks, seat);
    }
    forall T | T in reigns ensures Retains(reigns, acks, i, n.log, T, n.term) {
      assert Retains(reigns, acks, i, nodes[i].log, T, nodes[i].term);
      AckedInReign(nodes, reigns, acks, i, T);
      RetainsGrows(reigns, reigns, acks, acks, i, n.log, T, nodes[i].term, n.term);
    }
    NodesRetainUpdate(nodes, i, n, reigns, reigns, acks, acks);
  }

  /** A node may change anything but its log, as long as its commitments and its bookkeeping are in order. */
  lemma SameLogKeeps(nodes: map<nat, Node>, reigns: Reigns, acks: map<Seat, nat>, parcels: set<Parcel>,
                     answers: set<Answer>,
                     i: nat, n: Node)
    requires LogInv(nodes, reigns, acks, parcels, answers) && i in nodes && SameLog(nodes[i], n)
    requires NodeShape(nodes.Keys, i, n) && NodeCommits(nodes.Keys, n, reigns, acks)
    requires BookkeepingOk(nodes.Keys, n, acks)
    ensures LogInv(nodes[i := n], reigns, acks, parcels, answers)
  {
    assert nodes[i := n].Keys == nodes.Keys;
    GrowsRefl(reigns);
    SameLogKeepsLogs(nodes, reigns, i, n);
    SameLogKeepsAcks(nodes, reigns, acks, i, n);
    CommitsUpdate(nodes, i, n, n.term, reigns, reigns, acks, acks);
    BooksUpdate(nodes, i, n, n.term, acks, acks);
  }

  lemma QuietKeeps(nodes: map<nat, Node>, reigns: Reigns, acks: map<Seat, nat>, parcels: set<Parcel>,
                   answers: set<Answer>,
                   i: nat, n: Node)
    requires LogInv(nodes, reigns, acks, parcels, answers) && i in nodes && Quiet(nodes[i], n)
    ensures LogInv(nodes[i := n], reigns, acks, parcels, answers)
  {
    GrowsRefl(reigns);
    assert NodeShape(nodes.Keys, i, nodes[i]);
    assert NodeCommits(nodes.Keys, nodes[i], reigns, acks);
    SameCommits(nodes.Keys, nodes[i], n, i, n.term, reigns, reigns, acks, acks);
    assert BookkeepingOk(nodes.Keys, nodes[i], acks);
    forall p | n.role == Leader && p in nodes.Keys ensures BookOk(n, acks, p) { assert BookOk(nodes[i], acks, p); }
    SameLogKeeps(nodes, reigns, acks, parcels, answers, i, n);
  }

  /** The ballot a node casts now, with its present log, keeps what the node has confirmed. */
  lemma NewBallotRetains(nodes: map<nat, Node>, ballots: map<Seat, Ballot>, reigns: Reigns, acks: map<Seat, nat>,
                         i: nat, t: nat, b: Ballot)
    requires ReignsOk(reigns) && AcksOk(nodes, reigns, acks) && NodesRetain(nodes, reigns, acks)
    requires BallotsRetain(ballots, reigns, acks)
    requires i in nodes && t >= nodes[i].term && b.voterLog == nodes[i].log
    ensures BallotsRetain(ballots[Seat(i, t) := b], reigns, acks)
  {
    GrowsRefl(reigns);
    forall seat, T | seat in ballots[Seat(i, t) := b] && T in reigns && T < seat.term
      ensures Retains(reigns, acks, seat.node, ballots[Seat(i, t) := b][seat].voterLog, T, seat.term)
    {
      if seat == Seat(i, t) {
        assert Retains(reigns, acks, i, nodes[i].log, T, nodes[i].term);
        AckedInReign(nodes, reigns, acks, i, T);
        RetainsGrows(reigns, reigns, acks, acks, i, b.voterLog, T, nodes[i].term, t);
      } else {
        assert Retains(reigns, acks, seat.node, ballots[seat].voterLog, T, seat.term);
      }
    }
  }

  lemma VoteClaim(n: Node)
    requires n.offset == 0 && Contiguous(n.log, 0)
    ensures Claims(VoteRequest(n).lastTerm, VoteRequest(n).lastIndex, n.log)
    ensures n.LastIndex() == |n.log|
  {
  }

  lemma NoBallotYet(nodes: map<nat, Node>, reigns: Reigns, ballots: map<Seat, Ballot>, i: nat, t: nat)
    requires BallotsOk(nodes, reigns, ballots) && i in nodes
    ensures Seat(i, t) in ballots ==> t <= nodes[i].term
  {
    if Seat(i, t) in ballots { assert BallotOk(nodes, reigns, Seat(i, t), ballots[Seat(i, t)]); }
  }

  /** What a candidate's claims say stays true of the nodes that did not just become candidates. */
  ghost predicate SameCandidates(nodes: map<nat, Node>, nodes': map<nat, Node>) {
    && nodes'.Keys == nodes.Keys
    && forall j {:trigger nodes'[j]} :: j in nodes ==>
         && nodes'[j].term >= nodes[j].term
         && (nodes'[j].role == Candidate && nodes'[j].term == nodes[j].term ==>
               nodes[j].role == Candidate && nodes'[j].log == nodes[j].log)
  }

  lemma BallotsStay(nodes: map<nat, Node>, nodes': map<nat, Node>, reigns: Reigns, ballots: map<Seat, Ballot>)
    requires BallotsOk(nodes, reigns, ballots) && SameCandidates(nodes, nodes')
    ensures BallotsOk(nodes', reigns, ballots)
  {
    forall seat | seat in ballots ensures BallotOk(nodes', reigns, seat, ballots[seat]) {
      assert BallotOk(nodes, reigns, seat, ballots[seat]);
    }
  }

  lemma PollsStay(nodes: map<nat, Node>, nodes': map<nat, Node>, ballots: map<Seat, Ballot>,
                  ballots': map<Seat, Ballot>,
                  polls: map<PollKey, Poll>)
    requires PollsOk(nodes, ballots, polls) && SameCandidates(nodes, nodes')
    requires forall seat :: seat in ballots ==> seat in ballots' && ballots'[seat] == ballots[seat]
    ensures PollsOk(nodes', ballots', polls)
  {
    forall k | k in polls ensures PollOk(nodes', ballots', k, polls[k]) {
      assert PollOk(nodes, ballots, k, polls[k]);
    }
  }

  /** The tallies of the other candidates do not change when node i and its own polls do. */
  lemma OtherTallies(nodes: map<nat, Node>, i: nat, n: Node, ballots: map<Seat, Ballot>, ballots': map<Seat, Ballot>,
                     polls: map<PollKey, Poll>, polls': map<PollKey, Poll>,
                     counted: map<nat, set<nat>>, counted': map<nat, set<nat>>)
    requires TallyOk(nodes, ballots, polls, counted) && i in nodes
    requires forall seat :: seat in ballots ==> seat in ballots' && ballots'[seat] == ballots[seat]
    requires forall k :: k in polls' && k.candidate != i ==> k in polls
    requires forall j :: j in counted && j != i ==> j in counted' && counted'[j] == counted[j]
    requires CandidateOk(nodes.Keys, ballots', polls', counted', i, n)
    ensures TallyOk(nodes[i := n], ballots', polls', counted')
  {
    assert nodes[i := n].Keys == nodes.Keys;
    forall j | j in nodes && j != i ensures CandidateOk(nodes.Keys, ballots', polls', counted', j, nodes[j]) {
      assert CandidateOk(nodes.Keys, ballots, polls, counted, j, nodes[j]);
    }
  }

  lemma OtherVotes(nodes: map<nat, Node>, i: nat, n: Node, ballots: map<Seat, Ballot>, ballots': map<Seat, Ballot>)
    requires VotesOk(nodes, ballots) && i in nodes
    requires forall seat: Seat :: seat.node != i ==> (seat in ballots <==> seat in ballots')
    requires forall seat :: seat in ballots && seat.node != i ==> ballots'[seat] == ballots[seat]
    requires VoteOk(ballots', i, n)
    ensures VotesOk(nodes[i := n], ballots')
  {
    forall j | j in nodes && j != i ensures VoteOk(ballots', j, nodes[j]) { assert VoteOk(ballots, j, nodes[j]); }
  }

  // ---- becomeCandidate ----

  /** The requests of a new candidate. */
  function Requests(n: Node): map<PollKey, Poll> {
    map p | p in n.peers && p != n.id :: PollKey(n.id, n.term, p) := Asked(VoteRequest(n))
  }

  lemma TimeoutVotes(nodes: map<nat, Node>, polls: map<PollKey, Poll>, reigns: Reigns, ballots: map<Seat, Ballot>,
                     counted: map<nat, set<nat>>, i: nat, n: Node, b: Ballot)
    requires VoteInv(nodes, polls, reigns, ballots, counted) && Shape(nodes) && LogsOk(nodes, reigns)
    requires ReignsOk(reigns)
    requires i in nodes && n == BecomeCandidate(nodes[i])
    requires b == Ballot(i, VoteRequest(n).lastIndex, VoteRequest(n).lastTerm, n.log)
    ensures VoteInv(nodes[i := n], polls + Requests(n), reigns, ballots[Seat(i, n.term) := b], counted[i := {i}])
  {
    var nodes', ballots', polls' := nodes[i := n], ballots[Seat(i, n.term) := b], polls + Requests(n);
    assert nodes'.Keys == nodes.Keys;
    assert NodeShape(nodes.Keys, i, nodes[i]) && LogOk(reigns, nodes[i]);
    JustifiedLog(reigns, n.log);
    VoteClaim(n);
    NoBallotYet(nodes, reigns, ballots, i, n.term);
    BallotsStay(nodes, nodes', reigns, ballots);
    forall seat | seat in ballots' ensures BallotOk(nodes', reigns, seat, ballots'[seat]) {
      assert seat in ballots ==> BallotOk(nodes', reigns, seat, ballots[seat]);
    }
    OtherVotes(nodes, i, n, ballots, ballots');
    PollsStay(nodes, nodes', ballots, ballots', polls);
    forall k | k in polls' ensures PollOk(nodes', ballots', k, polls'[k]) {
      assert k in polls && k !in Requests(n) ==> PollOk(nodes', ballots', k, polls[k]);
    }
    OtherTallies(nodes, i, n, ballots, ballots', polls, polls', counted, counted[i := {i}]) by {
      forall k | k in polls' && k.candidate == i && k.term == n.term ensures k.peer !in {i} {
        if k in polls { assert PollOk(nodes, ballots, k, polls[k]); }
      }
    }
    GrowsRefl(reigns);
    RollsUpdate(nodes.Keys, reigns, reigns, ballots, ballots');
  }

  lemma TimeoutKeepsInv(s: Cluster, i: nat)
    requires Inv(s) && Enabled(s, Timeout(i))
    ensures Inv(DoTimeout(s, i))
  {
    var h := s.past;
    var n := BecomeCandidate(s.nodes[i]);
    var b := Ballot(i, VoteRequest(n).lastIndex, VoteRequest(n).lastTerm, n.log);
    assert NodeShape(s.nodes.Keys, i, s.nodes[i]);
    QuietKeeps(s.nodes, h.reigns, h.acks, s.parcels, s.answers, i, n);
    NewBallotRetains(s.nodes, h.ballots, h.reigns, h.acks, i, n.term, b);
    TimeoutVotes(s.nodes, s.polls, h.reigns, h.ballots, h.counted, i, n, b);
    assert DoTimeout(s, i).polls == s.polls + Requests(n);
  }

  // ---- HandleRequestVote ----

  /** The ballot a granted request leaves; the first one of the term stays. */
  function Cast(ballots: map<Seat, Ballot>, seat: Seat, b: Ballot, granted: bool): map<Seat, Ballot> {
    if granted && seat !in ballots then ballots[seat := b] else ballots
  }

  lemma AnswerBallots(nodes: map<nat, Node>, reigns: Reigns, ballots: map<Seat, Ballot>, i: nat, a: VoteArgs, n: Node,
                      reply: VoteReply, b: Ballot)
    requires BallotsOk(nodes, reigns, ballots) && VotesOk(nodes, ballots) && Shape(nodes) && LogsOk(nodes, reigns)
    requires ReignsOk(reigns)
    requires i in nodes && a.candidate in nodes && a.candidate != i && a.term <= nodes[a.candidate].term
    requires nodes[a.candidate].term == a.term && nodes[a.candidate].role == Candidate ==>
             Claims(a.lastTerm, a.lastIndex, nodes[a.candidate].log)
    requires (n, reply) == HandleVote(nodes[i], a) && b == Ballot(a.candidate, a.lastIndex, a.lastTerm, n.log)
    ensures BallotsOk(nodes[i := n], reigns, Cast(ballots, Seat(i, a.term), b, reply.granted))
    ensures VotesOk(nodes[i := n], Cast(ballots, Seat(i, a.term), b, reply.granted))
    ensures reply.granted ==> VotedFor(Cast(ballots, Seat(i, a.term), b, reply.granted), Seat(i, a.term), a.candidate)
  {
    var nodes', ballots' := nodes[i := n], Cast(ballots, Seat(i, a.term), b, reply.granted);
    assert NodeShape(nodes.Keys, i, nodes[i]) && LogOk(reigns, nodes[i]) && VoteOk(ballots, i, nodes[i]);
    JustifiedLog(reigns, n.log);
    VoteClaim(nodes[i]);
    NoBallotYet(nodes, reigns, ballots, i, n.term);
    assert SameCandidates(nodes, nodes');
    BallotsStay(nodes, nodes', reigns, ballots);
    CastKeepsBallots(nodes', reigns, ballots, Seat(i, a.term), b, reply.granted);
    OtherVotes(nodes, i, n, ballots, ballots');
  }

  lemma CastKeepsBallots(nodes: map<nat, Node>, reigns: Reigns, ballots: map<Seat, Ballot>, seat: Seat, b: Ballot,
                         granted: bool)
    requires BallotsOk(nodes, reigns, ballots) && (granted && seat !in ballots ==> BallotOk(nodes, reigns, seat, b))
    ensures BallotsOk(nodes, reigns, Cast(ballots, seat, b, granted))
  {
    var ballots' := Cast(ballots, seat, b, granted);
    forall s | s in ballots' ensures BallotOk(nodes, reigns, s, ballots'[s]) {
      assert s in ballots ==> BallotOk(nodes, reigns, s, ballots[s]);
    }
  }

  lemma AnswerVotes(nodes: map<nat, Node>, polls: map<PollKey, Poll>, reigns: Reigns, ballots: map<Seat, Ballot>,
                    counted: map<nat, set<nat>>, k: PollKey, n: Node, reply: VoteReply, ballots': map<Seat, Ballot>)
    requires VoteInv(nodes, polls, reigns, ballots, counted) && Shape(nodes) && LogsOk(nodes, reigns)
    requires ReignsOk(reigns)
    requires k in polls && polls[k].Asked? && k.peer in nodes
    requires (n, reply) == HandleVote(nodes[k.peer], polls[k].args)
    requires ballots' == Cast(ballots, Seat(k.peer, polls[k].args.term),
                              Ballot(polls[k].args.candidate, polls[k].args.lastIndex, polls[k].args.lastTerm, n.log),
                              reply.granted)
    ensures VoteInv(nodes[k.peer := n], polls[k := Answered(reply)], reigns, ballots', counted)
  {
    var i := k.peer;
    var nodes', polls' := nodes[i := n], polls[k := Answered(reply)];
    var a := polls[k].args;
    assert PollOk(nodes, ballots, k, polls[k]);
    assert nodes'.Keys == nodes.Keys;
    AnswerBallots(nodes, reigns, ballots, i, a, n, reply, Ballot(a.candidate, a.lastIndex, a.lastTerm, n.log));
    PollsStay(nodes, nodes', ballots, ballots', polls);
    forall j | j in polls' ensures PollOk(nodes', ballots', j, polls'[j]) {
      assert PollOk(nodes', ballots', j, polls[j]);
    }
    SamePolls(nodes, i, n, ballots, ballots', polls, polls', counted);
    GrowsRefl(reigns);
    RollsUpdate(nodes.Keys, reigns, reigns, ballots, ballots');
  }

  lemma SamePolls(nodes: map<nat, Node>, i: nat, n: Node, ballots: map<Seat, Ballot>, ballots': map<Seat, Ballot>,
                  polls: map<PollKey, Poll>, polls': map<PollKey, Poll>, counted: map<nat, set<nat>>)
    requires TallyOk(nodes, ballots, polls, counted) && i in nodes
    requires forall seat :: seat in ballots ==> seat in ballots' && ballots'[seat] == ballots[seat]
    requires polls'.Keys <= polls.Keys
    requires n.role == Candidate ==> nodes[i].role == Candidate && n.term == nodes[i].term && n.votes == nodes[i].votes
    ensures TallyOk(nodes[i := n], ballots', polls', counted)
  {
    assert CandidateOk(nodes.Keys, ballots, polls, counted, i, nodes[i]);
    OtherTallies(nodes, i, n, ballots, ballots', polls, polls', counted, counted);
  }

  lemma AnswerVoteKeepsInv(s: Cluster, k: PollKey)
    requires Inv(s) && Enabled(s, AnswerVote(k))
    ensures Inv(DoAnswerVote(s, k))
  {
    var h := s.past;
    var a := s.polls[k].args;
    var (n, reply) := HandleVote(s.nodes[k.peer], a);
    var s' := DoAnswerVote(s, k);
    assert PollOk(s.nodes, h.ballots, k, s.polls[k]);
    QuietKeeps(s.nodes, h.reigns, h.acks, s.parcels, s.answers, k.peer, n);
    if reply.granted {
      NewBallotRetains(s.nodes, h.ballots, h.reigns, h.acks, k.peer, a.term,
                       Ballot(a.candidate, a.lastIndex, a.lastTerm, n.log));
    }
    assert s'.past.ballots ==
      Cast(h.ballots, Seat(k.peer, a.term), Ballot(a.candidate, a.lastIndex, a.lastTerm, n.log), reply.granted);
    AnswerVotes(s.nodes, s.polls, h.reigns, h.ballots, h.counted, k, n, reply, s'.past.ballots);
  }

  // ---- Replies to vote requests ----

  /** Losing an exchange, or a reply that neither wins nor counts, removes a poll and at most makes the
      candidate step down. */
  lemma LosePollKeepsInv(s: Cluster, k: PollKey)
    requires Inv(s) && Enabled(s, LosePoll(k))
    ensures Inv(Do(s, LosePoll(k)))
  {
    var h := s.past;
    var polls' := s.polls - {k};
    forall j | j in polls'
      ensures PollOk(s.nodes, h.ballots, j, polls'[j])
    {
      assert PollOk(s.nodes, h.ballots, j, s.polls[j]);
    }
    forall i | i in s.nodes ensures CandidateOk(s.nodes.Keys, h.ballots, polls', h.counted, i, s.nodes[i]) {
      assert CandidateOk(s.nodes.Keys, h.ballots, s.polls, h.counted, i, s.nodes[i]);
    }
  }

  /** A reply that does not make the candidate a leader. */
  lemma CountVotes(nodes: map<nat, Node>, polls: map<PollKey, Poll>, reigns: Reigns, ballots: map<Seat, Ballot>,
                   counted: map<nat, set<nat>>, k: PollKey, n: Node, counted': map<nat, set<nat>>)
    requires VoteInv(nodes, polls, reigns, ballots, counted)
    requires k in polls && polls[k].Answered? && k.candidate in nodes
    requires nodes[k.candidate].role == Candidate && nodes[k.candidate].term == k.term
    requires polls[k].reply.term > k.term ==> n == StepDown(nodes[k.candidate], polls[k].reply.term)
    requires polls[k].reply.term <= k.term ==>
             n == nodes[k.candidate].(votes := nodes[k.candidate].votes + if polls[k].reply.granted then 1 else 0)
             && k.candidate in counted
             && counted' ==
                counted[k.candidate := counted[k.candidate] + if polls[k].reply.granted then {k.peer} else {}]
    requires polls[k].reply.term > k.term ==>
             forall j :: j in counted && j != k.candidate ==> j in counted' && counted'[j] == counted[j]
    ensures VoteInv(nodes[k.candidate := n], polls - {k}, reigns, ballots, counted')
  {
    var i := k.candidate;
    var nodes', polls' := nodes[i := n], polls - {k};
    assert nodes'.Keys == nodes.Keys;
    assert VoteOk(ballots, i, nodes[i]);
    assert PollOk(nodes, ballots, k, polls[k]);
    NoBallotYet(nodes, reigns, ballots, i, n.term);
    BallotsStay(nodes, nodes', reigns, ballots);
    OtherVotes(nodes, i, n, ballots, ballots);
    forall j | j in polls' ensures PollOk(nodes', ballots, j, polls'[j]) { assert PollOk(nodes, ballots, j, polls[j]); }
    assert CandidateOk(nodes.Keys, ballots, polls, counted, i, nodes[i]);
    OtherTallies(nodes, i, n, ballots, ballots, polls, polls', counted, counted');
  }
}
