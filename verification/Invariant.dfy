/** What every reachable state of the cluster satisfies. */
module Invariants {
  import opened Common
  import opened StateMachines
  import opened Quorums
  import opened RaftNode
  import opened Replication
  import opened Clusters

  // ---- Logs and reigns ----

  /** Every entry of the log was created by the leader of its term, and the log up to that entry is the
      start of that leader's log. */
  ghost predicate Justified(reigns: Reigns, log: seq<Entry>) {
    forall k {:trigger JustifiedAt(reigns, log, k)} :: 0 <= k < |log| ==> JustifiedAt(reigns, log, k)
  }

  ghost predicate JustifiedAt(reigns: Reigns, log: seq<Entry>, k: int)
    requires 0 <= k < |log|
  {
    log[k].term in reigns && Agree(log, reigns[log[k].term].log, k + 1)
  }

  predicate Sorted(log: seq<Entry>) {
    forall j, k :: 0 <= j < k < |log| ==> log[j].term <= log[k].term
  }

  predicate TermsUpTo(log: seq<Entry>, term: nat) {
    forall k :: 0 <= k < |log| ==> log[k].term <= term
  }

  /** A leader's log: what it was elected with carries older terms, what it added carries its own. */
  ghost predicate ReignOk(reigns: Reigns, t: nat)
    requires t in reigns
  {
    var r := reigns[t];
    && r.start < |r.log|
    && (forall k :: 0 <= k < r.start ==> r.log[k].term < t)
    && (forall k :: r.start <= k < |r.log| ==> r.log[k].term == t)
    && Contiguous(r.log, 0) && Sorted(r.log) && Justified(reigns, r.log)
  }

  ghost predicate ReignsOk(reigns: Reigns) {
    forall t {:trigger ReignOk(reigns, t)} :: t in reigns ==> ReignOk(reigns, t)
  }

  ghost predicate Shape(nodes: map<nat, Node>) {
    forall i {:trigger NodeShape(nodes.Keys, i, nodes[i])} :: i in nodes ==> NodeShape(nodes.Keys, i, nodes[i])
  }

  ghost predicate NodeShape(peers: set<nat>, i: nat, n: Node) {
    n.id == i && n.peers == peers && n.offset == 0 && n.matched.Keys <= peers
  }

  ghost predicate LogsOk(nodes: map<nat, Node>, reigns: Reigns) {
    forall i {:trigger LogOk(reigns, nodes[i])} :: i in nodes ==> LogOk(reigns, nodes[i])
  }

  ghost predicate LogOk(reigns: Reigns, n: Node) {
    Justified(reigns, n.log) && TermsUpTo(n.log, n.term)
  }

  /** A node that leads now is the leader of its term, with that leader's log. */
  ghost predicate LeadersOk(nodes: map<nat, Node>, reigns: Reigns) {
    forall i {:trigger LeaderOk(reigns, i, nodes[i])} :: i in nodes ==> LeaderOk(reigns, i, nodes[i])
  }

  ghost predicate LeaderOk(reigns: Reigns, i: nat, n: Node) {
    n.role == Leader ==> n.term in reigns && reigns[n.term].leader == i && reigns[n.term].log == n.log
  }

  /** Whoever led a term has reached it and will not stand for it again. */
  ghost predicate OwnersOk(nodes: map<nat, Node>, reigns: Reigns) {
    forall t {:trigger OwnerOk(nodes, reigns, t)} :: t in reigns ==> OwnerOk(nodes, reigns, t)
  }

  ghost predicate OwnerOk(nodes: map<nat, Node>, reigns: Reigns, t: nat)
    requires t in reigns
  {
    var i := reigns[t].leader;
    i in nodes && nodes[i].term >= t && (nodes[i].term == t ==> nodes[i].role != Candidate)
  }

  // ---- Votes ----

  predicate LogUpToDate(lastTerm: nat, lastIndex: nat, log: seq<Entry>) {
    var voterTerm := if log == [] then 0 else log[|log| - 1].term;
    lastTerm > voterTerm || (lastTerm == voterTerm && lastIndex >= |log|)
  }

  /** The claim about its log that a candidate sends. */
  predicate Claims(lastTerm: nat, lastIndex: nat, log: seq<Entry>) {
    lastIndex == |log| && lastTerm == if log == [] then 0 else log[|log| - 1].term
  }

  ghost predicate BallotOk(nodes: map<nat, Node>, reigns: Reigns, seat: Seat, b: Ballot) {
    && seat.node in nodes && seat.term <= nodes[seat.node].term
    && b.candidate in nodes && seat.term <= nodes[b.candidate].term
    && LogUpToDate(b.lastTerm, b.lastIndex, b.voterLog) && Justified(reigns, b.voterLog)
    && (nodes[b.candidate].term == seat.term && nodes[b.candidate].role == Candidate ==>
          Claims(b.lastTerm, b.lastIndex, nodes[b.candidate].log))
  }

  ghost predicate BallotsOk(nodes: map<nat, Node>, reigns: Reigns, ballots: map<Seat, Ballot>) {
    forall seat {:trigger BallotOk(nodes, reigns, seat, ballots[seat])} ::
      seat in ballots ==> BallotOk(nodes, reigns, seat, ballots[seat])
  }

  /** What a node remembers of its vote is its ballot of the current term. */
  ghost predicate VotesOk(nodes: map<nat, Node>, ballots: map<Seat, Ballot>) {
    forall i {:trigger VoteOk(ballots, i, nodes[i])} :: i in nodes ==> VoteOk(ballots, i, nodes[i])
  }

  ghost predicate VoteOk(ballots: map<Seat, Ballot>, i: nat, n: Node) {
    match n.votedFor
    case None => Seat(i, n.term) !in ballots
    case Some(c) => VotedFor(ballots, Seat(i, n.term), c)
  }

  predicate VotedFor(ballots: map<Seat, Ballot>, seat: Seat, c: nat) {
    seat in ballots && ballots[seat].candidate == c
  }

  ghost predicate PollOk(nodes: map<nat, Node>, ballots: map<Seat, Ballot>, k: PollKey, poll: Poll) {
    && k.candidate in nodes && k.peer in nodes && k.peer != k.candidate && k.term <= nodes[k.candidate].term
    && match poll
       case Asked(a) =>
         && a.term == k.term && a.candidate == k.candidate
         && (nodes[k.candidate].term == k.term && nodes[k.candidate].role == Candidate ==>
               Claims(a.lastTerm, a.lastIndex, nodes[k.candidate].log))
       case Answered(r) =>
         r.granted ==> VotedFor(ballots, Seat(k.peer, k.term), k.candidate)
  }

  ghost predicate PollsOk(nodes: map<nat, Node>, ballots: map<Seat, Ballot>, polls: map<PollKey, Poll>) {
    forall k {:trigger PollOk(nodes, ballots, k, polls[k])} :: k in polls ==> PollOk(nodes, ballots, k, polls[k])
  }

  /** The integer tally of a candidate is the number of peers that voted for it, none counted twice. */
  ghost predicate TallyOk(nodes: map<nat, Node>, ballots: map<Seat, Ballot>, polls: map<PollKey, Poll>,
                          counted: map<nat, set<nat>>) {
    forall i {:trigger CandidateOk(nodes.Keys, ballots, polls, counted, i, nodes[i])} ::
      i in nodes ==> CandidateOk(nodes.Keys, ballots, polls, counted, i, nodes[i])
  }

  ghost predicate CandidateOk(peers: set<nat>, ballots: map<Seat, Ballot>, polls: map<PollKey, Poll>,
                              counted: map<nat, set<nat>>, i: nat, n: Node) {
    n.role == Candidate ==>
      && i in counted && counted[i] <= peers && n.votes == |counted[i]|
      && (forall q :: q in counted[i] ==> VotedFor(ballots, Seat(q, n.term), i))
      && (forall k :: k in polls && k.candidate == i && k.term == n.term ==> k.peer !in counted[i])
  }

  /** A leader was elected by a majority that voted for it and found its log up to date. */
  ghost predicate RollsOk(peers: set<nat>, reigns: Reigns, ballots: map<Seat, Ballot>) {
    forall t {:trigger RollOk(peers, reigns, ballots, t)} :: t in reigns ==> RollOk(peers, reigns, ballots, t)
  }

  ghost predicate RollOk(peers: set<nat>, reigns: Reigns, ballots: map<Seat, Ballot>, t: nat)
    requires t in reigns
  {
    var r := reigns[t];
    && IsQuorum(peers, r.rolls.Keys)
    && r.start <= |r.log|
    && forall q :: q in r.rolls ==>
         && VotedFor(ballots, Seat(q, t), r.leader)
         && Justified(reigns, r.rolls[q])
         && LogUpToDate(if r.start == 0 then 0 else r.log[r.start - 1].term, r.start, r.rolls[q])
  }

  // ---- Confirmed entries are not forgotten, except to a leader that lacks them ----

  ghost predicate AcksOk(nodes: map<nat, Node>, reigns: Reigns, acks: map<Seat, nat>) {
    && (forall seat {:trigger AckOk(nodes, reigns, acks, seat)} :: seat in acks ==> AckOk(nodes, reigns, acks, seat))
    && (forall t {:trigger OwnAck(reigns, acks, t)} :: t in reigns ==> OwnAck(reigns, acks, t))
  }

  ghost predicate AckOk(nodes: map<nat, Node>, reigns: Reigns, acks: map<Seat, nat>, seat: Seat)
    requires seat in acks
  {
    && seat.node in nodes && seat.term in reigns && seat.term <= nodes[seat.node].term
    && acks[seat] <= |reigns[seat.term].log|
  }

  /** A leader confirms its own log. */
  ghost predicate OwnAck(reigns: Reigns, acks: map<Seat, nat>, t: nat)
    requires t in reigns
  {
    Acked(acks, reigns[t].leader, t) == |reigns[t].log|
  }

  /** The log still holds the first m entries of term T's leader, or a later leader, up to term `upTo`, did
      not have them. */
  ghost predicate Kept(reigns: Reigns, log: seq<Entry>, T: nat, m: nat, upTo: nat) {
    T in reigns && (Agree(log, reigns[T].log, m)
      || exists V :: T < V <= upTo && V in reigns && !Agree(reigns[V].log, reigns[T].log, m))
  }

  ghost predicate Retains(reigns: Reigns, acks: map<Seat, nat>, q: nat, log: seq<Entry>, T: nat, upTo: nat) {
    forall m: nat :: m <= Acked(acks, q, T) ==> Kept(reigns, log, T, m, upTo)
  }

  ghost predicate NodesRetain(nodes: map<nat, Node>, reigns: Reigns, acks: map<Seat, nat>) {
    forall q, T {:trigger Retains(reigns, acks, q, nodes[q].log, T, nodes[q].term)} ::
      q in nodes && T in reigns ==> Retains(reigns, acks, q, nodes[q].log, T, nodes[q].term)
  }

  ghost predicate BallotsRetain(ballots: map<Seat, Ballot>, reigns: Reigns, acks: map<Seat, nat>) {
    forall seat, T {:trigger Retains(reigns, acks, seat.node, ballots[seat].voterLog, T, seat.term)} ::
      seat in ballots && T in reigns && T < seat.term ==>
      Retains(reigns, acks, seat.node, ballots[seat].voterLog, T, seat.term)
  }

  ghost predicate RollsRetain(reigns: Reigns, acks: map<Seat, nat>) {
    forall U, q, T {:trigger RollRetains(reigns, acks, U, q, T)} ::
      U in reigns && q in reigns[U].rolls && T in reigns && T < U ==> RollRetains(reigns, acks, U, q, T)
  }

  ghost predicate RollRetains(reigns: Reigns, acks: map<Seat, nat>, U: nat, q: nat, T: nat)
    requires U in reigns && q in reigns[U].rolls && T < U
  {
    Retains(reigns, acks, q, reigns[U].rolls[q], T, U - 1)
  }

  // ---- Commitment ----

  ghost predicate AllAcked(acks: map<Seat, nat>, Q: set<nat>, T: nat, m: nat) {
    forall q :: q in Q ==> Acked(acks, q, T) >= m
  }

  /** Entry m of the leader of term T is of that term and confirmed by a majority: the commit rule. */
  ghost predicate Chosen(peers: set<nat>, reigns: Reigns, acks: map<Seat, nat>, T: nat, m: nat) {
    && T in reigns && 0 < m <= |reigns[T].log| && reigns[T].log[m - 1].term == T
    && exists Q :: IsQuorum(peers, Q) && AllAcked(acks, Q, T, m)
  }

  /** The entries are the start of what some leader, of term at most `bound`, has committed. */
  ghost predicate Committed(peers: set<nat>, reigns: Reigns, acks: map<Seat, nat>, prefix: seq<Entry>, bound: nat) {
    prefix == [] || exists T: nat, m: nat :: T <= bound && Chosen(peers, reigns, acks, T, m) && |prefix| <= m
                                   && prefix == reigns[T].log[..|prefix|]
  }

  ghost predicate NodeCommits(peers: set<nat>, n: Node, reigns: Reigns, acks: map<Seat, nat>) {
    && n.commit <= |n.log| && Committed(peers, reigns, acks, n.log[..n.commit], n.term)
    && n.applied <= |n.log| && Committed(peers, reigns, acks, n.log[..n.applied], n.term)
    && n.kv == Replay(map[], n.log[..n.applied])
  }

  ghost predicate CommitsOk(nodes: map<nat, Node>, reigns: Reigns, acks: map<Seat, nat>) {
    forall i {:trigger NodeCommits(nodes.Keys, nodes[i], reigns, acks)} ::
      i in nodes ==> NodeCommits(nodes.Keys, nodes[i], reigns, acks)
  }

  // ---- Replication in flight ----

  /** An AppendEntries in flight: a piece of its leader's log, a commit index inside that piece, and - when
      it is empty - only to a follower that has confirmed everything before it. */
  ghost predicate ParcelOk(peers: set<nat>, reigns: Reigns, acks: map<Seat, nat>, p: Parcel) {
    && p.args.term in reigns && p.args.leader == reigns[p.args.term].leader
    && p.to in peers && p.to != p.args.leader
    && Carries(p.args, reigns[p.args.term].log)
    && p.args.leaderCommit <= p.args.prevIndex + |p.args.entries|
    && Committed(peers, reigns, acks, reigns[p.args.term].log[..p.args.leaderCommit], p.args.term)
    && (p.args.entries == [] ==> Acked(acks, p.to, p.args.term) >= p.args.prevIndex)
  }

  ghost predicate ParcelsOk(peers: set<nat>, reigns: Reigns, acks: map<Seat, nat>, parcels: set<Parcel>) {
    forall p {:trigger ParcelOk(peers, reigns, acks, p)} :: p in parcels ==> ParcelOk(peers, reigns, acks, p)
  }

  /** A reply in flight: a success confirms everything sent; a failure names an index the leader holds
      strictly inside its log, or none. */
  ghost predicate AnswerOk(acks: map<Seat, nat>, parcels: set<Parcel>, a: Answer) {
    && a.parcel in parcels
    && (a.reply.success ==>
          && a.reply.term == a.parcel.args.term
          && Acked(acks, a.parcel.to, a.parcel.args.term) >= a.parcel.args.prevIndex + |a.parcel.args.entries|)
    && (!a.reply.success ==> a.reply.conflictIndex <= a.parcel.args.prevIndex)
  }

  ghost predicate AnswersOk(acks: map<Seat, nat>, parcels: set<Parcel>, answers: set<Answer>) {
    forall a {:trigger AnswerOk(acks, parcels, a)} :: a in answers ==> AnswerOk(acks, parcels, a)
  }

  /** A leader's bookkeeping for one peer. */
  ghost predicate BookOk(n: Node, acks: map<Seat, nat>, p: nat) {
    && p in n.next && 1 <= n.next[p] <= |n.log| + 1
    && p in n.matched
    && (if p == n.id then n.matched[p] == 0 else n.matched[p] <= Acked(acks, p, n.term))
    && (n.next[p] == |n.log| + 1 ==> p != n.id && Acked(acks, p, n.term) >= |n.log|)
  }

  ghost predicate BooksOk(nodes: map<nat, Node>, acks: map<Seat, nat>) {
    forall i {:trigger BookkeepingOk(nodes.Keys, nodes[i], acks)} ::
      i in nodes ==> BookkeepingOk(nodes.Keys, nodes[i], acks)
  }

  ghost predicate BookkeepingOk(peers: set<nat>, n: Node, acks: map<Seat, nat>) {
    n.role == Leader ==> forall p {:trigger BookOk(n, acks, p)} :: p in peers ==> BookOk(n, acks, p)
  }

  /** The part of the invariant about logs, confirmations and replication. */
  ghost predicate LogInv(nodes: map<nat, Node>, reigns: Reigns, acks: map<Seat, nat>, parcels: set<Parcel>,
                         answers: set<Answer>) {
    && Shape(nodes) && ReignsOk(reigns) && LogsOk(nodes, reigns)
    && LeadersOk(nodes, reigns) && OwnersOk(nodes, reigns)
    && AcksOk(nodes, reigns, acks)
    && NodesRetain(nodes, reigns, acks) && RollsRetain(reigns, acks)
    && CommitsOk(nodes, reigns, acks)
    && ParcelsOk(nodes.Keys, reigns, acks, parcels) && AnswersOk(acks, parcels, answers)
    && BooksOk(nodes, acks)
  }

  /** The part about votes. */
  ghost predicate VoteInv(nodes: map<nat, Node>, polls: map<PollKey, Poll>, reigns: Reigns, ballots: map<Seat, Ballot>,
                          counted: map<nat, set<nat>>) {
    && BallotsOk(nodes, reigns, ballots) && VotesOk(nodes, ballots)
    && PollsOk(nodes, ballots, polls) && TallyOk(nodes, ballots, polls, counted)
    && RollsOk(nodes.Keys, reigns, ballots)
  }

  ghost predicate Inv(s: Cluster) {
    && LogInv(s.nodes, s.past.reigns, s.past.acks, s.parcels, s.answers)
    && VoteInv(s.nodes, s.polls, s.past.reigns, s.past.ballots, s.past.counted)
    && BallotsRetain(s.past.ballots, s.past.reigns, s.past.acks)
  }

  // ---- Consequences of the log invariants ----

  lemma JustifiedLog(reigns: Reigns, log: seq<Entry>)
    requires ReignsOk(reigns) && Justified(reigns, log)
    ensures Contiguous(log, 0) && Sorted(log)
  {
    if log != [] {
      assert JustifiedAt(reigns, log, |log| - 1);
      assert ReignOk(reigns, log[|log| - 1].term);
      var last := reigns[log[|log| - 1].term].log;
      forall k | 0 <= k < |log| ensures log[k] == last[k] { AgreeAtPosition(log, last, |log|, k); }
    }
  }

  lemma JustifiedMatch(reigns: Reigns, a: seq<Entry>, b: seq<Entry>)
    requires Justified(reigns, a) && Justified(reigns, b)
    ensures LogMatch(a, b)
  {
    forall k | 0 <= k < |a| && k < |b| && a[k].term == b[k].term ensures a[..k + 1] == b[..k + 1] {
      assert JustifiedAt(reigns, a, k) && JustifiedAt(reigns, b, k);
    }
  }

  lemma JustifiedPrefix(reigns: Reigns, log: seq<Entry>, m: nat)
    requires Justified(reigns, log) && m <= |log|
    ensures Justified(reigns, log[..m])
  {
    forall k | 0 <= k < m ensures JustifiedAt(reigns, log[..m], k) {
      assert JustifiedAt(reigns, log, k);
      assert log[..m][..k + 1] == log[..k + 1];
    }
  }

  // ---- Leader completeness ----

  /** The comparison of logs when voting. `voter` still holds the first m entries of `base`, the last of
      them of term T; `lead`, the log the new leader was elected with, is at least as up to date; then it
      holds them too, given that its last entry's leader does (`newest`). */
  lemma VoteComparison(voter: seq<Entry>, lead: seq<Entry>, newest: seq<Entry>, base: seq<Entry>, T: nat, m: nat)
    requires Agree(voter, base, m) && m > 0 && base[m - 1].term == T
    requires lead != [] && Sorted(voter) && Sorted(newest)
    requires LogUpToDate(lead[|lead| - 1].term, |lead|, voter)
    requires Agree(lead, newest, |lead|)
    requires lead[|lead| - 1].term == voter[|voter| - 1].term ==> Agree(voter, newest, |voter|)
    requires lead[|lead| - 1].term > T ==> Agree(newest, base, m)
    ensures Agree(lead, base, m)
  {
    AgreeAtPosition(voter, base, m, m - 1);
    assert T <= voter[|voter| - 1].term;
    if lead[|lead| - 1].term == voter[|voter| - 1].term {
      AgreePrefix(voter, newest, |voter|, m);
    } else if |lead| < m {
      assert false;
    }
    AgreePrefix(lead, newest, |lead|, m);
  }

  /** The first entries of a leader's log, the ones it was elected with. */
  ghost function Elected(r: Reign): seq<Entry>
    requires r.start <= |r.log|
  {
    r.log[..r.start]
  }

  /** If a voter still held the first m entries of T's leader when it voted for the leader of U, and every
      leader between had them, the leader of U has them. */
  lemma ElectedWithVote(peers: set<nat>, reigns: Reigns, ballots: map<Seat, Ballot>, T: nat, m: nat, U: nat, q: nat)
    requires ReignsOk(reigns) && U in reigns && RollOk(peers, reigns, ballots, U) && q in reigns[U].rolls
    requires T in reigns && 0 < m <= |reigns[T].log| && reigns[T].log[m - 1].term == T
    requires Agree(reigns[U].rolls[q], reigns[T].log, m)
    requires forall V :: T < V < U && V in reigns ==> Agree(reigns[V].log, reigns[T].log, m)
    ensures Agree(reigns[U].log, reigns[T].log, m)
  {
    var r := reigns[U];
    var voter, lead := r.rolls[q], Elected(r);
    assert ReignOk(reigns, U);
    JustifiedLog(reigns, voter);
    AgreeAtPosition(voter, reigns[T].log, m, m - 1);
    assert voter[|voter| - 1].term >= voter[m - 1].term;
    assert JustifiedAt(reigns, voter, |voter| - 1);
    assert r.start > 0;
    var last := r.log[r.start - 1];
    assert lead[|lead| - 1] == last;
    assert JustifiedAt(reigns, r.log, r.start - 1);
    assert ReignOk(reigns, last.term);
    assert r.log[..r.start] == lead[..r.start];
    VoteComparison(voter, lead, reigns[last.term].log, reigns[T].log, T, m);
    assert lead[..m] == r.log[..m];
  }

  /** What a leader of an earlier term committed is in the log of every later leader: some voter of the later
      leader had confirmed it, and kept it until it voted. */
  lemma {:induction false} LeaderCompleteness(peers: set<nat>, reigns: Reigns, ballots: map<Seat, Ballot>,
                                             acks: map<Seat, nat>, T: nat, m: nat, U: nat)
    requires ReignsOk(reigns) && RollsOk(peers, reigns, ballots) && RollsRetain(reigns, acks)
    requires Chosen(peers, reigns, acks, T, m) && U in reigns && T < U
    ensures Agree(reigns[U].log, reigns[T].log, m)
    decreases U
  {
    var Q :| IsQuorum(peers, Q) && AllAcked(acks, Q, T, m);
    assert RollOk(peers, reigns, ballots, U);
    var q := QuorumsMeet(peers, Q, reigns[U].rolls.Keys);
    assert RollRetains(reigns, acks, U, q, T);
    assert Kept(reigns, reigns[U].rolls[q], T, m, U - 1);
    forall V | T < V < U && V in reigns ensures Agree(reigns[V].log, reigns[T].log, m) {
      LeaderCompleteness(peers, reigns, ballots, acks, T, m, V);
    }
    ElectedWithVote(peers, reigns, ballots, T, m, U, q);
  }

  /** The term and index that witness a commitment. */
  lemma CommittedWitness(peers: set<nat>, reigns: Reigns, acks: map<Seat, nat>, p: seq<Entry>, bound: nat)
    returns (T: nat, m: nat)
    requires Committed(peers, reigns, acks, p, bound) && p != []
    ensures T <= bound && Chosen(peers, reigns, acks, T, m) && |p| <= m && p == reigns[T].log[..|p|]
  {
    T, m :| T <= bound && Chosen(peers, reigns, acks, T, m) && |p| <= m && p == reigns[T].log[..|p|];
  }

  /** Anything committed is at the start of the log of every leader of that or a later term. */
  lemma CommittedInLaterLeader(peers: set<nat>, reigns: Reigns, ballots: map<Seat, Ballot>, acks: map<Seat, nat>,
                               p: seq<Entry>, bound: nat, U: nat)
    requires ReignsOk(reigns) && RollsOk(peers, reigns, ballots) && RollsRetain(reigns, acks)
    requires Committed(peers, reigns, acks, p, bound) && U in reigns && bound <= U
    ensures Agree(p, reigns[U].log, |p|)
  {
    if p != [] {
      var T, m := CommittedWitness(peers, reigns, acks, p, bound);
      assert p[..|p|] == p;
      if T < U {
        LeaderCompleteness(peers, reigns, ballots, acks, T, m, U);
        AgreePrefix(reigns[U].log, reigns[T].log, m, |p|);
      }
    }
  }

  /** Any two committed sequences are one the start of the other. */
  lemma CommittedComparable(peers: set<nat>, reigns: Reigns, ballots: map<Seat, Ballot>, acks: map<Seat, nat>,
                            a: seq<Entry>, ta: nat, b: seq<Entry>, tb: nat)
    requires ReignsOk(reigns) && RollsOk(peers, reigns, ballots) && RollsRetain(reigns, acks)
    requires Committed(peers, reigns, acks, a, ta) && Committed(peers, reigns, acks, b, tb)
    ensures forall k :: 0 <= k < |a| && k < |b| ==> a[k] == b[k]
  {
    if a != [] && b != [] {
      var T, m := CommittedWitness(peers, reigns, acks, a, ta);
      var U, n := CommittedWitness(peers, reigns, acks, b, tb);
      var W := if T <= U then U else T;
      CommittedInLaterLeader(peers, reigns, ballots, acks, a, T, W);
      CommittedInLaterLeader(peers, reigns, ballots, acks, b, U, W);
      forall k | 0 <= k < |a| && k < |b| ensures a[k] == b[k] {
        AgreeAtPosition(a, reigns[W].log, |a|, k);
        AgreeAtPosition(b, reigns[W].log, |b|, k);
      }
    }
  }

  lemma CommittedShorter(peers: set<nat>, reigns: Reigns, acks: map<Seat, nat>, p: seq<Entry>, m: nat, bound: nat,
                         bound': nat)
    requires Committed(peers, reigns, acks, p, bound) && m <= |p| && bound <= bound'
    ensures Committed(peers, reigns, acks, p[..m], bound')
  {
    if m > 0 {
      var T, k := CommittedWitness(peers, reigns, acks, p, bound);
      assert p[..m] == reigns[T].log[..m];
    }
  }
}
