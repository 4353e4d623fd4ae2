/** A run in which a commit index moves back. Three nodes; node 1 is elected with the vote of node 2, sends its
    no-op, takes a client's command, and sends both entries. Both followers confirm the second message, the
    leader commits index 2, and then the reply of node 2 to the first message arrives. */
module LateRuns {
  import opened Common
  import opened Quorums
  import opened RaftNode
  import opened Clusters
  import opened Runs
  import opened LateReplies

  const PEERS: set<nat> := {1, 2, 3}
  const KEY: PollKey := PollKey(1, 1, 2)
  const FIRST: Entry := Entry(1, 1, [110, 111, 45, 111, 112])
  const SECOND: Entry := Entry(1, 2, [])

  /** The two messages: the no-op, and the no-op with the command. */
  const EARLY: AppendArgs := AppendArgs(1, 1, 0, 0, [FIRST], 0)
  const LATER: AppendArgs := AppendArgs(1, 1, 0, 0, [FIRST, SECOND], 0)
  const CONFIRMED: AppendReply := AppendReply(1, true, 0)

  // ---- The nodes along the way ----

  function Voter(): Node {
    FreshNode(2, PEERS).(term := 1, votedFor := Some(1))
  }

  function Elected(): Node {
    Node(1, PEERS, 1, Some(1), [FIRST], 0, 0, 0, map[], Leader,
         map[1 := 1, 2 := 1, 3 := 1], map[1 := 0, 2 := 0, 3 := 0], 2, 0, 0)
  }

  function Busy(): Node {
    Elected().(log := [FIRST, SECOND])
  }

  /** A follower that holds both entries. */
  predicate Holds(n: Node) {
    n.term == 1 && n.offset == 0 && n.log == [FIRST, SECOND]
  }

  lemma ElectedIsLeader()
    ensures HandleVote(FreshNode(2, PEERS), VoteArgs(1, 1, 0, 0)) == (Voter(), VoteReply(1, true))
    ensures HandleVoteReply(BecomeCandidate(FreshNode(1, PEERS)), VoteReply(1, true)) == Elected()
  {
    assert |PEERS| == 3;
    var n := BecomeCandidate(FreshNode(1, PEERS)).(votes := 2);
    assert BecomeLeader(n).next == map[1 := 1, 2 := 1, 3 := 1];
    assert BecomeLeader(n).matched == map[1 := 0, 2 := 0, 3 := 0];
    assert BecomeLeader(n).log == [FIRST];
  }

  lemma AfterTimeout()
    ensures Enabled(Start(PEERS), Timeout(1))
    ensures var s' := Do(Start(PEERS), Timeout(1));
      && s'.nodes == map[1 := BecomeCandidate(FreshNode(1, PEERS)), 2 := FreshNode(2, PEERS), 3 := FreshNode(3, PEERS)]
      && KEY in s'.polls && s'.polls[KEY] == Asked(VoteArgs(1, 1, 0, 0)) && s'.clock == 0
  {
  }

  // ---- The run ----

  lemma Beginning() returns (r: Run)
    ensures IsRun(r) && Last(r) == Start(PEERS)
  {
    r := Run(PEERS, [Start(PEERS)], []);
  }

  lemma Asking() returns (r: Run)
    ensures IsRun(r) && KEY in Last(r).polls && Last(r).polls[KEY] == Asked(VoteArgs(1, 1, 0, 0)) && Last(r).clock == 0
    ensures Last(r).nodes ==
      map[1 := BecomeCandidate(FreshNode(1, PEERS)), 2 := FreshNode(2, PEERS), 3 := FreshNode(3, PEERS)]
  {
    r := Beginning();
    AfterTimeout();
    r := Extend(r, Timeout(1));
  }

  lemma Voting() returns (r: Run)
    ensures IsRun(r) && KEY in Last(r).polls && Last(r).polls[KEY] == Answered(VoteReply(1, true)) && Last(r).clock == 0
    ensures Last(r).nodes == map[1 := BecomeCandidate(FreshNode(1, PEERS)), 2 := Voter(), 3 := FreshNode(3, PEERS)]
  {
    r := Asking();
    AfterVote(Last(r), KEY);
    ElectedIsLeader();
    r := Extend(r, AnswerVote(KEY));
  }

  lemma Counting(r: Run) returns (r': Run)
    requires IsRun(r) && KEY in Last(r).polls && Last(r).polls[KEY] == Answered(VoteReply(1, true))
    requires 1 in Last(r).nodes && Last(r).nodes[1] == BecomeCandidate(FreshNode(1, PEERS))
    ensures IsRun(r') && Last(r').nodes == Last(r).nodes[1 := Elected()] && Last(r').clock == Last(r).clock
  {
    AfterCount(Last(r), KEY);
    ElectedIsLeader();
    r' := Extend(r, CountVote(KEY));
  }

  lemma Election() returns (r: Run)
    ensures IsRun(r) && Last(r).nodes == map[1 := Elected(), 2 := Voter(), 3 := FreshNode(3, PEERS)]
    ensures Last(r).clock == 0
  {
    r := Voting();
    r := Counting(r);
  }

  /** The leader sends its log to followers p and q. */
  lemma Ticking(r: Run, p: nat, q: nat) returns (r': Run)
    requires IsRun(r) && 1 in Last(r).nodes && p in PEERS && q in PEERS && p != 1 && q != 1
    requires Waiting(Last(r).nodes[1]) && 1 in Last(r).nodes[1].next && p in Last(r).nodes[1].next
    requires q in Last(r).nodes[1].next
    requires Last(r).nodes[1].next[p] == 1 && Last(r).nodes[1].next[q] == 1
    ensures IsRun(r') && Last(r').nodes == Last(r).nodes && Last(r').clock == Last(r).clock + 1
    ensures Last(r).parcels <= Last(r').parcels
    ensures Parcel(p, Last(r).clock, AppendArgs(1, 1, 0, 0, Last(r).nodes[1].log, 0)) in Last(r').parcels
    ensures Parcel(q, Last(r).clock, AppendArgs(1, 1, 0, 0, Last(r).nodes[1].log, 0)) in Last(r').parcels
  {
    MessageIs(Last(r).nodes[1], p);
    MessageIs(Last(r).nodes[1], q);
    AfterTick(Last(r), 1, p);
    AfterTick(Last(r), 1, q);
    r' := Extend(r, Tick(1));
  }

  predicate Waiting(n: Node) {
    n.role == Leader && n.term == 1 && n.id == 1 && n.offset == 0 && n.commit == 0 && n.peers == PEERS
  }

  lemma Proposing(r: Run) returns (r': Run)
    requires IsRun(r) && 1 in Last(r).nodes && Last(r).nodes[1] == Elected()
    ensures IsRun(r') && Last(r').nodes == Last(r).nodes[1 := Busy()] && Last(r').clock == Last(r).clock
    ensures Last(r').parcels == Last(r).parcels
  {
    AfterProposal(Last(r), 1, []);
    assert Propose(Elected(), []) == Busy();
    r' := Extend(r, ClientProposal(1, []));
  }

  lemma Sending() returns (r: Run)
    ensures IsRun(r) && Last(r).nodes == map[1 := Busy(), 2 := Voter(), 3 := FreshNode(3, PEERS)]
    ensures Parcel(2, 0, EARLY) in Last(r).parcels && Parcel(2, 1, LATER) in Last(r).parcels
    ensures Parcel(3, 1, LATER) in Last(r).parcels
  {
    r := Election();
    r := Ticking(r, 2, 3);
    r := Proposing(r);
    r := Ticking(r, 2, 3);
  }

  lemma MessageIs(n: Node, p: nat)
    requires n.term == 1 && n.id == 1 && n.offset == 0 && n.commit == 0 && p in n.next && n.next[p] == 1
    ensures PeerMessage(n, p) == Some(AppendArgs(1, 1, 0, 0, n.log, 0))
  {
    assert n.log[0..] == n.log;
  }

  lemma Fresh(n: Node)
    requires n.log == [] && n.offset == 0 && n.term <= 1
    ensures HandleAppend(n, LATER, true, true).1 == CONFIRMED && Holds(HandleAppend(n, LATER, true, true).0)
  {
    var m := Acknowledge(n, LATER);
    assert ScanFrom(m, LATER.entries, 0) == Scan(0, false);
    assert Cut(m, LATER.entries).log + Rest(m, LATER.entries) == [FIRST, SECOND];
    CatchUpFrame(FollowCommit(m.(log := [FIRST, SECOND]), 0));
  }

  lemma Again(n: Node)
    requires Holds(n)
    ensures HandleAppend(n, EARLY, true, true).1 == CONFIRMED && Holds(HandleAppend(n, EARLY, true, true).0)
  {
    var m := Acknowledge(n, EARLY);
    assert ScanFrom(m, EARLY.entries, 1) == Scan(1, false);
    assert ScanFrom(m, EARLY.entries, 0) == Scan(1, false);
    assert Cut(m, EARLY.entries).log + Rest(m, EARLY.entries) == [FIRST, SECOND];
    CatchUpFrame(FollowCommit(m.(log := [FIRST, SECOND]), 0));
  }

  /** One more message arrives and is confirmed. */
  lemma Delivering(r: Run, p: Parcel) returns (r': Run)
    requires IsRun(r) && p in Last(r).parcels && p.to in Last(r).nodes && p.to != 1 && 1 in Last(r).nodes
    requires HandleAppend(Last(r).nodes[p.to], p.args, true, true).1 == CONFIRMED
    ensures IsRun(r') && Last(r').parcels == Last(r).parcels
    ensures Last(r').answers == Last(r).answers + {Answer(p, CONFIRMED)}
    ensures Last(r').nodes == Last(r).nodes[p.to := HandleAppend(Last(r).nodes[p.to], p.args, true, true).0]
  {
    AfterDelivery(Last(r), p);
    r' := Extend(r, DeliverAppend(p, true, true));
  }

  /** All three messages have arrived and been confirmed. */
  lemma Confirming() returns (r: Run)
    ensures IsRun(r) && 1 in Last(r).nodes && Last(r).nodes[1] == Busy()
    ensures Answer(Parcel(2, 0, EARLY), CONFIRMED) in Last(r).answers
    ensures Answer(Parcel(2, 1, LATER), CONFIRMED) in Last(r).answers
    ensures Answer(Parcel(3, 1, LATER), CONFIRMED) in Last(r).answers
  {
    r := Sending();
    Fresh(Voter());
    Fresh(FreshNode(3, PEERS));
    r := Delivering(r, Parcel(2, 1, LATER));
    r := Delivering(r, Parcel(3, 1, LATER));
    Again(Last(r).nodes[2]);
    r := Delivering(r, Parcel(2, 0, EARLY));
  }

  /** The pick while one follower, and then both, are recorded to hold both entries. */
  lemma Picks()
    ensures MajorityPick(map[1 := 0, 2 := 2, 3 := 0], 2) == 0
    ensures MajorityPick(map[1 := 0, 2 := 2, 3 := 2], 2) == 2
    ensures Votes(map[1 := 0, 2 := 2, 3 := 2], 2, 2) == 3 == (|map[1 := 0, 2 := 2, 3 := 2]| + 1) / 2 + 1
  {
    var one: map<nat, nat> := map[1 := 0, 2 := 2, 3 := 0];
    var both: map<nat, nat> := map[1 := 0, 2 := 2, 3 := 2];
    assert one.Keys == PEERS && both.Keys == PEERS && |PEERS| == 3;
    assert |one| == |one.Keys| && |both| == |both.Keys|;
    assert AtLeast(one, 0) == PEERS && AtLeast(one, 1) == {2};
    assert AtLeast(both, 2) == {2, 3} && AtLeast(both, 3) == {};
    assert IsMajorityPick(one, 2, 0) && IsMajorityPick(both, 2, 2);
    PickIsUnique(one, 2, 0, MajorityPick(one, 2));
    PickIsUnique(both, 2, 2, MajorityPick(both, 2));
  }

  /** The leader after the first and after the second confirmation. */
  lemma Commits()
    ensures HandleAppendReply(Busy(), 2, LATER, CONFIRMED) ==
            Busy().(next := map[1 := 1, 2 := 3, 3 := 1], matched := map[1 := 0, 2 := 2, 3 := 0])
    ensures var n := HandleAppendReply(HandleAppendReply(Busy(), 2, LATER, CONFIRMED), 3, LATER, CONFIRMED);
      && n.role == Leader && n.term == 1 && n.id == 1 && n.log == [FIRST, SECOND] && n.commit == 2
      && n.matched == map[1 := 0, 2 := 2, 3 := 2]
  {
    Picks();
    var m := RecordReply(Busy(), 2, LATER, CONFIRMED);
    assert m.next == map[1 := 1, 2 := 3, 3 := 1] && m.matched == map[1 := 0, 2 := 2, 3 := 0];
    assert !CanAdvance(m);
    var m' := RecordReply(m, 3, LATER, CONFIRMED);
    assert m'.matched == map[1 := 0, 2 := 2, 3 := 2];
    assert CanAdvance(m');
    CatchUpFrame(m'.(commit := 2));
  }

  lemma Answering(r: Run, a: Answer) returns (r': Run)
    requires IsRun(r) && a in Last(r).answers && a.parcel.args.leader == 1 && a.parcel.args.term == 1
    requires 1 in Last(r).nodes && Last(r).nodes[1].role == Leader && Last(r).nodes[1].term == 1
    ensures IsRun(r') && Last(r').answers == Last(r).answers && 1 in Last(r').nodes
    ensures Last(r').nodes[1] == HandleAppendReply(Last(r).nodes[1], a.parcel.to, a.parcel.args, a.reply)
    ensures |r'.steps| == |r.steps| + 1 && r'.steps[|r.steps|] == DeliverAnswer(a)
    ensures |r'.states| == |r.states| + 1 && r'.states[|r.states| - 1] == Last(r)
  {
    AfterAnswer(Last(r), a);
    r' := Extend(r, DeliverAnswer(a));
  }

  /** The leader has committed both entries; the reply to its first message is still to come. */
  lemma Committing() returns (r: Run)
    ensures IsRun(r) && Answer(Parcel(2, 0, EARLY), CONFIRMED) in Last(r).answers && 1 in Last(r).nodes
    ensures var n := Last(r).nodes[1];
      && n.role == Leader && n.term == 1 && n.id == 1 && n.log == [FIRST, SECOND] && n.commit == 2
      && n.matched == map[1 := 0, 2 := 2, 3 := 2]
  {
    r := Confirming();
    Commits();
    r := Answering(r, Answer(Parcel(2, 1, LATER), CONFIRMED));
    r := Answering(r, Answer(Parcel(3, 1, LATER), CONFIRMED));
  }

  /** A run in which the last step lowers the commit index of a leader. */
  lemma LateReplyLowersCommit() returns (r: Run, k: nat)
    ensures IsRun(r) && k < |r.steps| && r.steps[k] == DeliverAnswer(Answer(Parcel(2, 0, EARLY), CONFIRMED))
    ensures 1 in r.states[k].nodes && 1 in r.states[k + 1].nodes
    ensures r.states[k].nodes[1].role == Leader && r.states[k].nodes[1].commit == 2
    ensures r.states[k + 1].nodes[1].commit < 2
  {
    r := Committing();
    Picks();
    assert TakesBack(Last(r).nodes[1], Answer(Parcel(2, 0, EARLY), CONFIRMED));
    k := |r.steps|;
    r := Answering(r, Answer(Parcel(2, 0, EARLY), CONFIRMED));
    CommitDropsExactly(r, k, 1);
  }
}
