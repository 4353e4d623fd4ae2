/** The cluster: nodes exchanging messages, one handler, reply handler, tick or client call at a time.

    Environment. Every step is atomic. A reply is delivered only while its sender is still in the term and
    role it asked from. LeaderCommit is read together with the entries. Nodes do not restart and do not take
    snapshots, so every offset stays 0. Messages may be lost, and AppendEntries and their replies may also be
    delayed, reordered and delivered again; the disk may fail at any write. */
module Clusters {
  import opened Common
  import opened RaftNode

  /** One RequestVote exchange: the requests of one becomeCandidate go out once to every other peer. */
  datatype PollKey = PollKey(candidate: nat, term: nat, peer: nat)

  datatype Poll = Asked(args: VoteArgs) | Answered(reply: VoteReply)

  /** An AppendEntries on its way to a peer; `stamp` is the tick that sent it. */
  datatype Parcel = Parcel(to: nat, stamp: nat, args: AppendArgs)

  datatype Answer = Answer(parcel: Parcel, reply: AppendReply)

  // ---- History: what happened, for the proofs only; no step looks at it ----

  /** The one leader of a term: its log so far, the length of the log it was elected with, and the logs its
      voters had when they voted. */
  datatype Reign = Reign(leader: nat, log: seq<Entry>, start: nat, rolls: map<nat, seq<Entry>>)

  type Reigns = map<nat, Reign>

  datatype Seat = Seat(node: nat, term: nat)

  /** A vote: for whom, what the candidate claimed about its log, and the voter's log at the time. */
  datatype Ballot = Ballot(candidate: nat, lastIndex: nat, lastTerm: nat, voterLog: seq<Entry>)

  datatype History = History(
    reigns: Reigns,
    ballots: map<Seat, Ballot>,
    acks: map<Seat, nat>,            // the longest part of the term's log a node has confirmed
    counted: map<nat, set<nat>>,     // the peers whose votes a candidate has counted
    seen: map<PollKey, nat>)         // the stamp of the last reply handled, by leader, term and peer

  datatype Cluster = Cluster(
    nodes: map<nat, Node>,
    polls: map<PollKey, Poll>,
    parcels: set<Parcel>,
    answers: set<Answer>,
    clock: nat,
    past: History)

  datatype Step =
    | Timeout(node: nat)
    | AnswerVote(key: PollKey)
    | CountVote(key: PollKey)
    | LosePoll(key: PollKey)
    | ClientProposal(node: nat, data: Bytes)
    | Tick(node: nat)
    | DeliverAppend(parcel: Parcel, truncOk: bool, appendOk: bool)
    | DeliverAnswer(answer: Answer)

  ghost predicate Enabled(s: Cluster, step: Step) {
    match step
    case Timeout(i) => i in s.nodes && s.nodes[i].role != Leader
    case AnswerVote(k) => k in s.polls && s.polls[k].Asked? && k.peer in s.nodes
    case CountVote(k) => k in s.polls && s.polls[k].Answered? && k.candidate in s.nodes
                         && s.nodes[k.candidate].role == Candidate && s.nodes[k.candidate].term == k.term
    case LosePoll(k) => k in s.polls
    case ClientProposal(i, _) => i in s.nodes && s.nodes[i].role == Leader
    case Tick(i) => i in s.nodes && s.nodes[i].role == Leader
    case DeliverAppend(p, _, _) => p in s.parcels && p.to in s.nodes
    case DeliverAnswer(a) => a in s.answers && a.parcel.args.leader in s.nodes
                             && s.nodes[a.parcel.args.leader].role == Leader
                             && s.nodes[a.parcel.args.leader].term == a.parcel.args.term
  }

  function Acked(acks: map<Seat, nat>, node: nat, term: nat): nat {
    if Seat(node, term) in acks then acks[Seat(node, term)] else 0
  }

  ghost function DoTimeout(s: Cluster, i: nat): Cluster
    requires Enabled(s, Timeout(i))
  {
    var n := BecomeCandidate(s.nodes[i]);
    var args := VoteRequest(n);
    s.(nodes := s.nodes[i := n],
       polls := s.polls + map p | p in n.peers && p != i :: PollKey(i, n.term, p) := Asked(args),
       past := s.past.(ballots := s.past.ballots[Seat(i, n.term) := Ballot(i, args.lastIndex, args.lastTerm, n.log)],
                       counted := s.past.counted[i := {i}]))
  }

  ghost function DoAnswerVote(s: Cluster, k: PollKey): Cluster
    requires Enabled(s, AnswerVote(k))
  {
    var args := s.polls[k].args;
    var (n, reply) := HandleVote(s.nodes[k.peer], args);
    var seat := Seat(k.peer, args.term);
    s.(nodes := s.nodes[k.peer := n],
       polls := s.polls[k := Answered(reply)],
       past := if reply.granted && seat !in s.past.ballots
               then s.past.(ballots :=
                 s.past.ballots[seat := Ballot(args.candidate, args.lastIndex, args.lastTerm, n.log)])
               else s.past)
  }

  /** The reign that begins when candidate i, with the votes of `counted`, becomes leader as node n. */
  ghost function NewReign(s: Cluster, i: nat, counted: set<nat>, n: Node): Reign
    requires i in s.nodes
  {
    Reign(i, n.log, |s.nodes[i].log|,
          map q | q in counted && Seat(q, n.term) in s.past.ballots :: s.past.ballots[Seat(q, n.term)].voterLog)
  }

  ghost function DoCountVote(s: Cluster, k: PollKey): Cluster
    requires Enabled(s, CountVote(k))
  {
    var i := k.candidate;
    var reply := s.polls[k].reply;
    var n := HandleVoteReply(s.nodes[i], reply);
    var before := if i in s.past.counted then s.past.counted[i] else {};
    var counted := if reply.term <= s.nodes[i].term && reply.granted then before + {k.peer} else before;
    var past := s.past.(counted := s.past.counted[i := counted]);
    s.(nodes := s.nodes[i := n],
       polls := s.polls - {k},
       past := if n.role == Leader
               then past.(reigns := past.reigns[n.term := NewReign(s, i, counted, n)],
                          acks := past.acks[Seat(i, n.term) := |n.log|])
               else past)
  }

  ghost function DoPropose(s: Cluster, i: nat, data: Bytes): Cluster
    requires Enabled(s, ClientProposal(i, data))
  {
    var n := Propose(s.nodes[i], data);
    s.(nodes := s.nodes[i := n],
       past := if n.term in s.past.reigns
               then s.past.(reigns := s.past.reigns[n.term := s.past.reigns[n.term].(log := n.log)],
                            acks := s.past.acks[Seat(i, n.term) := |n.log|])
               else s.past)
  }

  /** The tick's messages, all built from the same state of the leader. */
  ghost function TickParcels(n: Node, clock: nat): set<Parcel> {
    set p | p in n.peers && p != n.id && PeerMessage(n, p).Some? :: Parcel(p, clock, PeerMessage(n, p).value)
  }

  ghost function DoTick(s: Cluster, i: nat): Cluster
    requires Enabled(s, Tick(i))
  {
    s.(parcels := s.parcels + TickParcels(s.nodes[i], s.clock), clock := s.clock + 1)
  }

  ghost function DoDeliverAppend(s: Cluster, p: Parcel, truncOk: bool, appendOk: bool): Cluster
    requires Enabled(s, DeliverAppend(p, truncOk, appendOk))
  {
    var (n, reply) := HandleAppend(s.nodes[p.to], p.args, truncOk, appendOk);
    var confirmed := p.args.prevIndex + |p.args.entries|;
    s.(nodes := s.nodes[p.to := n],
       answers := s.answers + {Answer(p, reply)},
       past := if reply.success && Acked(s.past.acks, p.to, p.args.term) < confirmed
               then s.past.(acks := s.past.acks[Seat(p.to, p.args.term) := confirmed])
               else s.past)
  }

  ghost function DoDeliverAnswer(s: Cluster, a: Answer): Cluster
    requires Enabled(s, DeliverAnswer(a))
  {
    var i := a.parcel.args.leader;
    var n := HandleAppendReply(s.nodes[i], a.parcel.to, a.parcel.args, a.reply);
    s.(nodes := s.nodes[i := n],
       past := s.past.(seen := s.past.seen[PollKey(i, a.parcel.args.term, a.parcel.to) := a.parcel.stamp]))
  }

  ghost function Do(s: Cluster, step: Step): Cluster
    requires Enabled(s, step)
  {
    match step
    case Timeout(i) => DoTimeout(s, i)
    case AnswerVote(k) => DoAnswerVote(s, k)
    case CountVote(k) => DoCountVote(s, k)
    case LosePoll(k) => s.(polls := s.polls - {k})
    case ClientProposal(i, data) => DoPropose(s, i, data)
    case Tick(i) => DoTick(s, i)
    case DeliverAppend(p, truncOk, appendOk) => DoDeliverAppend(s, p, truncOk, appendOk)
    case DeliverAnswer(a) => DoDeliverAnswer(s, a)
  }

  /** Any set of peers, every node knowing all of them, itself included. */
  ghost function Start(peers: set<nat>): Cluster {
    Cluster(map i | i in peers :: FreshNode(i, peers), map[], {}, {}, 0, History(map[], map[], map[], map[], map[]))
  }

  /** A run: the states a cluster goes through, and the steps between them. */
  datatype Run = Run(peers: set<nat>, states: seq<Cluster>, steps: seq<Step>)

  ghost predicate IsRun(r: Run) {
    && |r.states| == |r.steps| + 1
    && r.states[0] == Start(r.peers)
    && forall k :: 0 <= k < |r.steps| ==>
         Enabled(r.states[k], r.steps[k]) && r.states[k + 1] == Do(r.states[k], r.steps[k])
  }
}
