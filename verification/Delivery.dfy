/** Ticks, deliveries of AppendEntries and of their replies keep the invariant. */
module Delivery {
  import opened Common
  import opened StateMachines
  import opened Quorums
  import opened RaftNode
  import opened Replication
  import opened Clusters
  import opened Invariants
  import opened Growth
  import opened Elections
  import opened Leadership

  // ---- Heartbeat tick ----

  /** What a tick sends: a piece of the leader's log, never beyond its end. */
  lemma TickMessage(peers: set<nat>, n: Node, reigns: Reigns, acks: map<Seat, nat>, p: nat, stamp: nat)
    requires n.role == Leader && NodeShape(peers, n.id, n) && LeaderOk(reigns, n.id, n) && ReignsOk(reigns)
    requires BookkeepingOk(peers, n, acks) && NodeCommits(peers, n, reigns, acks)
    requires p in peers && p != n.id
    ensures PeerMessage(n, p).Some?
    ensures ParcelOk(peers, reigns, acks, Parcel(p, stamp, PeerMessage(n, p).value))
  {
    assert BookOk(n, acks, p);
    assert ReignOk(reigns, n.term);
    var a := PeerMessage(n, p).value;
    assert a.entries == n.log[a.prevIndex..];
    assert n.log[a.prevIndex..] == n.log[a.prevIndex..a.prevIndex + |a.entries|];
  }

  lemma TickKeepsInv(s: Cluster, i: nat)
    requires Inv(s) && Enabled(s, Tick(i))
    ensures Inv(DoTick(s, i))
  {
    var h := s.past;
    var n := s.nodes[i];
    var parcels' := DoTick(s, i).parcels;
    assert NodeShape(s.nodes.Keys, i, n) && LeaderOk(h.reigns, i, n) && NodeCommits(s.nodes.Keys, n, h.reigns, h.acks);
    assert BookkeepingOk(s.nodes.Keys, n, h.acks);
    forall p | p in parcels' ensures ParcelOk(s.nodes.Keys, h.reigns, h.acks, p) {
      if p in s.parcels { assert ParcelOk(s.nodes.Keys, h.reigns, h.acks, p); }
      else { TickMessage(s.nodes.Keys, n, h.reigns, h.acks, p.to, s.clock); }
    }
    forall a | a in s.answers ensures AnswerOk(h.acks, parcels', a) { assert AnswerOk(h.acks, s.parcels, a); }
  }

  // ---- HandleAppendEntries ----

  /** Confirmed entries survive a delivery, unless its leader lacks them. */
  lemma DeliveryKept(reigns: Reigns, log: seq<Entry>, log': seq<Entry>, T: nat, m: nat, t: nat, U: nat)
    requires U in reigns && Follows(log, log', reigns[U].log) && t <= U
    requires Kept(reigns, log, T, m, t) && m <= |reigns[T].log| && (m > 0 ==> T <= t)
    ensures Kept(reigns, log', T, m, U)
  {
    var base, lead := reigns[T].log, reigns[U].log;
    if m == 0 {
      assert Agree(log', base, 0);
    } else if Agree(log, base, m) {
      if T == U || Agree(lead, base, m) {
        AgreeTransitive(log, base, lead, m);
        AgreeTransitive(log', lead, base, m);
      }
    }
  }

  lemma DeliveryRetains(nodes: map<nat, Node>, reigns: Reigns, acks: map<Seat, nat>, acks': map<Seat, nat>, i: nat,
                        n: Node,
                        confirmed: nat)
    requires i in nodes && ReignsOk(reigns) && AcksOk(nodes, reigns, acks) && NodesRetain(nodes, reigns, acks)
    requires n.term in reigns && nodes[i].term <= n.term && Follows(nodes[i].log, n.log, reigns[n.term].log)
    requires AckStep(acks, acks', i, n.term)
    requires acks' == acks
             || (acks' == acks[Seat(i, n.term) := confirmed] && Agree(n.log, reigns[n.term].log, confirmed))
    ensures NodesRetain(nodes[i := n], reigns, acks')
  {
    GrowsRefl(reigns);
    forall T | T in reigns ensures Retains(reigns, acks', i, n.log, T, n.term) {
      assert Retains(reigns, acks, i, nodes[i].log, T, nodes[i].term);
      AckedInReign(nodes, reigns, acks, i, T);
      forall m: nat | m <= Acked(acks', i, T) ensures Kept(reigns, n.log, T, m, n.term) {
        if m <= Acked(acks, i, T) {
          assert Kept(reigns, nodes[i].log, T, m, nodes[i].term);
          DeliveryKept(reigns, nodes[i].log, n.log, T, m, nodes[i].term, n.term);
        } else {
          AgreePrefix(n.log, reigns[n.term].log, confirmed, m);
        }
      }
    }
    NodesRetainUpdate(nodes, i, n, reigns, reigns, acks, acks');
  }

  /** An empty message only reaches, in its own term, a follower that holds everything before it. */
  lemma EmptyMessageMatches(nodes: map<nat, Node>, reigns: Reigns, acks: map<Seat, nat>, p: Parcel)
    requires AcksOk(nodes, reigns, acks) && NodesRetain(nodes, reigns, acks)
    requires ParcelOk(nodes.Keys, reigns, acks, p) && p.args.entries == []
    requires nodes[p.to].term <= p.args.term
    ensures Agree(nodes[p.to].log, reigns[p.args.term].log, p.args.prevIndex)
    ensures p.args.prevIndex > 0 ==> nodes[p.to].term == p.args.term
  {
    AckedInReign(nodes, reigns, acks, p.to, p.args.term);
    assert Retains(reigns, acks, p.to, nodes[p.to].log, p.args.term, nodes[p.to].term);
    assert Kept(reigns, nodes[p.to].log, p.args.term, p.args.prevIndex, nodes[p.to].term);
  }

  /** What was committed stays in the follower's log. */
  lemma CommittedSurvives(peers: set<nat>, reigns: Reigns, ballots: map<Seat, Ballot>, acks: map<Seat, nat>,
                          log: seq<Entry>, log': seq<Entry>, c: nat, t: nat, U: nat)
    requires ReignsOk(reigns) && RollsOk(peers, reigns, ballots) && RollsRetain(reigns, acks)
    requires c <= |log| && Committed(peers, reigns, acks, log[..c], t) && U in reigns && t <= U
    requires Follows(log, log', reigns[U].log)
    ensures Agree(log, log', c)
  {
    CommittedInLaterLeader(peers, reigns, ballots, acks, log[..c], t, U);
    assert log[..c][..c] == log[..c];
    assert Agree(log, reigns[U].log, c);
  }

  /** The new commit index covers only what the follower shares with its leader. */
  lemma FollowedCommit(m: Node, a: AppendArgs, lead: seq<Entry>, n: Node, r: AppendReply)
    requires Delivered(m, a, lead, n, r) && r.success && a.leaderCommit > m.commit
    requires a.leaderCommit <= a.prevIndex + |a.entries| <= |lead|
    requires a.entries == [] ==> Agree(m.log, lead, a.prevIndex)
    ensures n.commit == a.leaderCommit && Agree(n.log, lead, n.commit)
  {
    AgreePrefix(n.log, lead, a.prevIndex + |a.entries|, a.leaderCommit);
  }

  lemma AppliedIsReplay(m: Node, a: AppendArgs, lead: seq<Entry>, n: Node, r: AppendReply)
    requires Delivered(m, a, lead, n, r) && Agree(m.log, n.log, m.applied) && n.commit <= |n.log|
    requires m.kv == Replay(map[], m.log[..m.applied])
    ensures n.kv == Replay(map[], n.log[..n.applied])
  {
    if r.success && m.applied < n.commit {
      var was, added := n.log[..m.applied], n.log[m.applied..n.commit];
      ReplayConcat(map[], was, added);
      assert was + added == n.log[..n.commit];
    }
  }

  /** The follower's commit index, capped by its own last index, stays within what is committed. */
  lemma DeliveryCommits(peers: set<nat>, reigns: Reigns, ballots: map<Seat, Ballot>, acks: map<Seat, nat>, n0: Node,
                        m: Node,
                        p: Parcel, n: Node, r: AppendReply)
    requires ReignsOk(reigns) && RollsOk(peers, reigns, ballots) && RollsRetain(reigns, acks)
    requires ParcelOk(peers, reigns, acks, p) && Delivered(m, p.args, reigns[p.args.term].log, n, r)
    requires NodeCommits(peers, n0, reigns, acks) && n0.term <= p.args.term && m == Acknowledge(n0, p.args)
    requires p.args.entries == [] ==> Agree(m.log, reigns[p.args.term].log, p.args.prevIndex)
    ensures NodeCommits(peers, n, reigns, acks)
  {
    var U, a := p.args.term, p.args;
    var lead := reigns[U].log;
    CommittedSurvives(peers, reigns, ballots, acks, n0.log, n.log, n0.commit, n0.term, U);
    CommittedSurvives(peers, reigns, ballots, acks, n0.log, n.log, n0.applied, n0.term, U);
    GrowsRefl(reigns);
    CommittedGrows(peers, reigns, reigns, acks, acks, n0.log[..n0.commit], n0.term, U);
    CommittedGrows(peers, reigns, reigns, acks, acks, n0.log[..n0.applied], n0.term, U);
    if r.success && a.leaderCommit > m.commit {
      FollowedCommit(m, a, lead, n, r);
      assert n.log[..n.commit] == lead[..a.leaderCommit];
    }
    AppliedIsReplay(m, a, lead, n, r);
  }

  lemma DeliveryLogs(nodes: map<nat, Node>, reigns: Reigns, i: nat, n: Node)
    requires Shape(nodes) && ReignsOk(reigns) && LogsOk(nodes, reigns) && LeadersOk(nodes, reigns)
    requires OwnersOk(nodes, reigns)
    requires i in nodes && n.term in reigns && nodes[i].term <= n.term
    requires Follows(nodes[i].log, n.log, reigns[n.term].log)
    requires n.role == Follower && NodeShape(nodes.Keys, i, n)
    ensures Shape(nodes[i := n]) && LogsOk(nodes[i := n], reigns) && LeadersOk(nodes[i := n], reigns)
    ensures OwnersOk(nodes[i := n], reigns)
  {
    var nodes' := nodes[i := n];
    assert nodes'.Keys == nodes.Keys;
    GrowsRefl(reigns);
    assert LogOk(reigns, nodes[i]) && ReignOk(reigns, n.term);
    if n.log != nodes[i].log { JustifiedPrefix(reigns, reigns[n.term].log, |n.log|); }
    LogsUpdate(nodes, i, n, reigns, reigns);
    forall j | j in nodes ensures NodeShape(nodes.Keys, j, nodes'[j]) && LeaderOk(reigns, j, nodes'[j]) {
      assert NodeShape(nodes.Keys, j, nodes[j]) && LeaderOk(reigns, j, nodes[j]);
    }
    forall t | t in reigns ensures OwnerOk(nodes', reigns, t) { assert OwnerOk(nodes, reigns, t); }
  }

  lemma DeliveryAcks(nodes: map<nat, Node>, reigns: Reigns, acks: map<Seat, nat>, acks': map<Seat, nat>, i: nat,
                     n: Node, confirmed: nat)
    requires AcksOk(nodes, reigns, acks) && i in nodes && nodes[i].term <= n.term && n.term in reigns
    requires acks' == acks || acks' == acks[Seat(i, n.term) := confirmed]
    requires confirmed <= |reigns[n.term].log| && reigns[n.term].leader != i
    ensures AcksOk(nodes[i := n], reigns, acks')
  {
    forall seat | seat in acks' ensures AckOk(nodes[i := n], reigns, acks', seat) {
      if seat in acks { assert AckOk(nodes, reigns, acks, seat); }
    }
    forall t | t in reigns ensures OwnAck(reigns, acks', t) { assert OwnAck(reigns, acks, t); }
  }

  /** What a delivery that is not stale does to the follower n0. */
  lemma FreshDelivery(nodes: map<nat, Node>, reigns: Reigns, acks: map<Seat, nat>, p: Parcel, truncOk: bool,
                      appendOk: bool)
    requires Shape(nodes) && ReignsOk(reigns) && LogsOk(nodes, reigns) && ParcelOk(nodes.Keys, reigns, acks, p)
    requires nodes[p.to].term <= p.args.term
    ensures var (n, r) := HandleAppend(nodes[p.to], p.args, truncOk, appendOk);
      Delivered(Acknowledge(nodes[p.to], p.args), p.args, reigns[p.args.term].log, n, r)
  {
    var n0, lead := nodes[p.to], reigns[p.args.term].log;
    assert NodeShape(nodes.Keys, p.to, n0) && LogOk(reigns, n0) && ReignOk(reigns, p.args.term);
    JustifiedLog(reigns, n0.log);
    JustifiedMatch(reigns, n0.log, lead);
    DeliveryEffect(n0, p.args, lead, truncOk, appendOk);
  }

  lemma DeliveryKeepsLogs(nodes: map<nat, Node>, ballots: map<Seat, Ballot>, reigns: Reigns, acks: map<Seat, nat>,
                          acks': map<Seat, nat>,
                          parcels: set<Parcel>, answers: set<Answer>, p: Parcel, n: Node, r: AppendReply)
    requires LogInv(nodes, reigns, acks, parcels, answers) && BallotsOk(nodes, reigns, ballots)
    requires RollsOk(nodes.Keys, reigns, ballots) && BallotsRetain(ballots, reigns, acks)
    requires p in parcels && p.to in nodes && nodes[p.to].term <= p.args.term && p.args.term in reigns
    requires Delivered(Acknowledge(nodes[p.to], p.args), p.args, reigns[p.args.term].log, n, r)
    requires var confirmed := p.args.prevIndex + |p.args.entries|;
             acks' == if r.success && Acked(acks, p.to, p.args.term) < confirmed
                      then acks[Seat(p.to, p.args.term) := confirmed] else acks
    ensures LogInv(nodes[p.to := n], reigns, acks', parcels, answers + {Answer(p, r)})
    ensures BallotsRetain(ballots, reigns, acks')
  {
    var i, a := p.to, p.args;
    var confirmed := a.prevIndex + |a.entries|;
    assert nodes[i := n].Keys == nodes.Keys;
    assert ParcelOk(nodes.Keys, reigns, acks, p) && NodeShape(nodes.Keys, i, nodes[i]);
    GrowsRefl(reigns);
    assert AckStep(acks, acks', i, n.term);
    if a.entries == [] { EmptyMessageMatches(nodes, reigns, acks, p); }
    assert a.entries == [] ==> Agree(nodes[i].log, reigns[a.term].log, a.prevIndex);
    DeliveryLogs(nodes, reigns, i, n);
    DeliveryAcks(nodes, reigns, acks, acks', i, n, confirmed);
    DeliveryRetains(nodes, reigns, acks, acks', i, n, confirmed);
    DeliveryKeepsCommits(nodes, ballots, reigns, acks, acks', p, n, r);
    BallotsRetainUpdate(nodes, ballots, i, n.term, reigns, reigns, acks, acks');
    RollsRetainUpdate(nodes, ballots, i, n.term, reigns, reigns, acks, acks');
    BooksUpdate(nodes, i, n, n.term, acks, acks');
    DeliveryKeepsMessages(nodes.Keys, reigns, acks, acks', parcels, answers, Answer(p, r), n.term);
  }

  lemma DeliveryKeepsCommits(nodes: map<nat, Node>, ballots: map<Seat, Ballot>, reigns: Reigns, acks: map<Seat, nat>,
                             acks': map<Seat, nat>, p: Parcel, n: Node, r: AppendReply)
    requires p.to in nodes && ReignsOk(reigns) && RollsOk(nodes.Keys, reigns, ballots) && RollsRetain(reigns, acks)
    requires CommitsOk(nodes, reigns, acks) && ParcelOk(nodes.Keys, reigns, acks, p)
    requires nodes[p.to].term <= p.args.term && AckStep(acks, acks', p.to, n.term)
    requires Delivered(Acknowledge(nodes[p.to], p.args), p.args, reigns[p.args.term].log, n, r)
    requires p.args.entries == [] ==> Agree(nodes[p.to].log, reigns[p.args.term].log, p.args.prevIndex)
    ensures CommitsOk(nodes[p.to := n], reigns, acks')
  {
    GrowsRefl(reigns);
    assert NodeCommits(nodes.Keys, nodes[p.to], reigns, acks);
    DeliveryCommits(nodes.Keys, reigns, ballots, acks, nodes[p.to], Acknowledge(nodes[p.to], p.args), p, n, r);
    SameCommits(nodes.Keys, n, n, p.to, n.term, reigns, reigns, acks, acks');
    CommitsUpdate(nodes, p.to, n, n.term, reigns, reigns, acks, acks');
  }

  lemma DeliveryKeepsMessages(peers: set<nat>, reigns: Reigns, acks: map<Seat, nat>, acks': map<Seat, nat>,
                              parcels: set<Parcel>, answers: set<Answer>, a: Answer, t: nat)
    requires ReignsOk(reigns) && AckStep(acks, acks', a.parcel.to, t) && AnswerOk(acks', parcels, a)
    requires ParcelsOk(peers, reigns, acks, parcels) && AnswersOk(acks, parcels, answers)
    ensures ParcelsOk(peers, reigns, acks', parcels) && AnswersOk(acks', parcels, answers + {a})
  {
    GrowsRefl(reigns);
    ParcelsUpdate(peers, parcels, a.parcel.to, t, reigns, reigns, acks, acks');
    AnswersUpdate(parcels, answers, a.parcel.to, t, acks, acks');
    MoreAnswers(acks', parcels, answers, a);
  }

  lemma FreshDeliveryKeepsInv(s: Cluster, p: Parcel, truncOk: bool, appendOk: bool)
    requires Inv(s) && Enabled(s, DeliverAppend(p, truncOk, appendOk)) && s.nodes[p.to].term <= p.args.term
    ensures Inv(DoDeliverAppend(s, p, truncOk, appendOk))
  {
    var h, s' := s.past, DoDeliverAppend(s, p, truncOk, appendOk);
    var (n, r) := HandleAppend(s.nodes[p.to], p.args, truncOk, appendOk);
    assert ParcelOk(s.nodes.Keys, h.reigns, h.acks, p);
    FreshDelivery(s.nodes, h.reigns, h.acks, p, truncOk, appendOk);
    DeliveryKeepsLogs(s.nodes, h.ballots, h.reigns, h.acks, s'.past.acks, s.parcels, s.answers, p, n, r);
    GrowsRefl(h.reigns);
    SameVotes(s.nodes, s.polls, h.reigns, h.reigns, h.ballots, h.counted, p.to, n);
  }

  lemma MoreAnswers(acks: map<Seat, nat>, parcels: set<Parcel>, answers: set<Answer>, a: Answer)
    requires AnswersOk(acks, parcels, answers) && AnswerOk(acks, parcels, a)
    ensures AnswersOk(acks, parcels, answers + {a})
  {
    forall b | b in answers + {a}
      ensures AnswerOk(acks, parcels, b)
    {
      assert b in answers ==> AnswerOk(acks, parcels, b);
    }
  }

  lemma DeliverAppendKeepsInv(s: Cluster, p: Parcel, truncOk: bool, appendOk: bool)
    requires Inv(s) && Enabled(s, DeliverAppend(p, truncOk, appendOk))
    ensures Inv(DoDeliverAppend(s, p, truncOk, appendOk))
  {
    if s.nodes[p.to].term <= p.args.term {
      FreshDeliveryKeepsInv(s, p, truncOk, appendOk);
    } else {
      assert DoDeliverAppend(s, p, truncOk, appendOk).nodes == s.nodes;
      MoreAnswers(s.past.acks, s.parcels, s.answers, Answer(p, AppendReply(s.nodes[p.to].term, false, 0)));
    }
  }

  // ---- Replies to AppendEntries ----

  /** The commit rule: the picked entry is of the leader's own term and confirmed by a majority. */
  lemma AdvanceIsChosen(peers: set<nat>, n: Node, reigns: Reigns, acks: map<Seat, nat>)
    requires n.role == Leader && NodeShape(peers, n.id, n) && n.id in peers && LeaderOk(reigns, n.id, n)
    requires ReignsOk(reigns) && OwnAck(reigns, acks, n.term)
    requires BookkeepingOk(peers, n, acks) && CanAdvance(n)
    ensures Chosen(peers, reigns, acks, n.term, MajorityPick(n.matched, n.LastIndex()))
    ensures MajorityPick(n.matched, n.LastIndex()) <= |n.log|
  {
    var pick := MajorityPick(n.matched, n.LastIndex());
    assert ReignOk(reigns, n.term);
    VoteClaim(n);
    forall p | p in peers ensures p in n.matched { assert BookOk(n, acks, p); }
    assert n.matched.Keys == peers;
    assert BookOk(n, acks, n.id);
    PickIsHeldByQuorum(n.matched, n.id, n.LastIndex());
    var Q := Holders(n.matched, n.id, n.LastIndex(), pick);
    forall q | q in Q ensures Acked(acks, q, n.term) >= pick { assert BookOk(n, acks, q); }
    assert AllAcked(acks, Q, n.term, pick);
  }

  lemma AdvanceCommits(peers: set<nat>, n: Node, reigns: Reigns, acks: map<Seat, nat>)
    requires n.role == Leader && NodeShape(peers, n.id, n) && n.id in peers && LeaderOk(reigns, n.id, n)
    requires ReignsOk(reigns) && OwnAck(reigns, acks, n.term)
    requires BookkeepingOk(peers, n, acks) && NodeCommits(peers, n, reigns, acks)
    ensures NodeCommits(peers, TryAdvance(n), reigns, acks)
    ensures TryAdvance(n) ==
      n.(commit := TryAdvance(n).commit, applied := TryAdvance(n).applied, kv := TryAdvance(n).kv)
  {
    if CanAdvance(n) {
      AdvanceIsChosen(peers, n, reigns, acks);
      var pick := MajorityPick(n.matched, n.LastIndex());
      var m := n.(commit := pick);
      if n.applied < pick { CatchUpReplays(m, n.applied, pick); }
      assert Committed(peers, reigns, acks, n.log[..pick], n.term);
      if n.applied < pick {
        ReplayConcat(map[], n.log[..n.applied], n.log[n.applied..pick]);
        assert n.log[..n.applied] + n.log[n.applied..pick] == n.log[..pick];
      }
    }
  }

  lemma RecordBooks(peers: set<nat>, n: Node, reigns: Reigns, acks: map<Seat, nat>, parcels: set<Parcel>, a: Answer)
    requires n.role == Leader && NodeShape(peers, n.id, n) && LeaderOk(reigns, n.id, n) && ReignsOk(reigns)
    requires BookkeepingOk(peers, n, acks) && AnswerOk(acks, parcels, a) && ParcelOk(peers, reigns, acks, a.parcel)
    requires a.parcel.args.term == n.term && a.parcel.args.leader == n.id
    ensures var m := RecordReply(n, a.parcel.to, a.parcel.args, a.reply);
      NodeShape(peers, n.id, m) && BookkeepingOk(peers, m, acks)
  {
    var m := RecordReply(n, a.parcel.to, a.parcel.args, a.reply);
    LastSent(a.parcel.args, reigns[n.term].log);
    forall p | m.role == Leader && p in peers ensures BookOk(m, acks, p) {
      assert BookOk(n, acks, p);
      RecordOneBook(n, reigns, acks, a, p);
    }
  }

  lemma RecordOneBook(n: Node, reigns: Reigns, acks: map<Seat, nat>, a: Answer, p: nat)
    requires BookOk(n, acks, p) && a.parcel.to != n.id && n.term in reigns && reigns[n.term].log == n.log
    requires Carries(a.parcel.args, n.log) && a.parcel.args.term == n.term
    requires var es := a.parcel.args.entries;
      es != [] ==> es[|es| - 1].index == a.parcel.args.prevIndex + |es|
    requires a.reply.success ==>
             Acked(acks, a.parcel.to, n.term) >= a.parcel.args.prevIndex + |a.parcel.args.entries|
    requires !a.reply.success ==> a.reply.conflictIndex <= a.parcel.args.prevIndex
    requires RecordReply(n, a.parcel.to, a.parcel.args, a.reply).role == Leader
    requires a.reply.term <= n.term
    ensures BookOk(RecordReply(n, a.parcel.to, a.parcel.args, a.reply), acks, p)
  {
  }

  lemma LastSent(a: AppendArgs, lead: seq<Entry>)
    requires Carries(a, lead)
    ensures a.entries != [] ==> a.entries[|a.entries| - 1].index == a.prevIndex + |a.entries|
  {
    CarriedIsWellFormed(a, lead);
  }

  lemma RecordFrame(n: Node, p: nat, sent: AppendArgs, r: AppendReply)
    requires n.role == Leader && sent.term == n.term
    ensures var m := RecordReply(n, p, sent, r);
      && SameLog(n, m) && m.role != Candidate && m.term >= n.term && m.id == n.id
      && m.votedFor == (if m.term > n.term then None else n.votedFor)
      && m.commit == n.commit && m.applied == n.applied && m.kv == n.kv
      && (r.term <= n.term ==> m == n.(matched := m.matched, next := m.next))
  {
  }

  /** What handling a reply makes of the leader. */
  lemma AnsweredNode(peers: set<nat>, n0: Node, reigns: Reigns, acks: map<Seat, nat>, parcels: set<Parcel>, a: Answer)
    requires n0.role == Leader && NodeShape(peers, n0.id, n0) && n0.id in peers && LeaderOk(reigns, n0.id, n0)
    requires ReignsOk(reigns) && OwnAck(reigns, acks, n0.term) && NodeCommits(peers, n0, reigns, acks)
    requires BookkeepingOk(peers, n0, acks) && AnswerOk(acks, parcels, a) && ParcelOk(peers, reigns, acks, a.parcel)
    requires a.parcel.args.term == n0.term && a.parcel.args.leader == n0.id
    ensures var n := HandleAppendReply(n0, a.parcel.to, a.parcel.args, a.reply);
      && SameLog(n0, n) && NodeShape(peers, n0.id, n) && n.role != Candidate
      && NodeCommits(peers, n, reigns, acks) && BookkeepingOk(peers, n, acks)
      && n.votedFor == (if n.term > n0.term then None else n0.votedFor)
  {
    var m := RecordReply(n0, a.parcel.to, a.parcel.args, a.reply);
    RecordBooks(peers, n0, reigns, acks, parcels, a);
    RecordFrame(n0, a.parcel.to, a.parcel.args, a.reply);
    GrowsRefl(reigns);
    SameCommits(peers, n0, m, n0.id, m.term, reigns, reigns, acks, acks);
    if a.reply.success && a.parcel.args.entries != [] {
      AdvanceCommits(peers, m, reigns, acks);
      SameBookkeeping(peers, m, TryAdvance(m), acks);
    }
  }

  lemma DeliverAnswerKeepsInv(s: Cluster, a: Answer)
    requires Inv(s) && Enabled(s, DeliverAnswer(a))
    ensures Inv(DoDeliverAnswer(s, a))
  {
    var h := s.past;
    var i := a.parcel.args.leader;
    var n0 := s.nodes[i];
    var n := HandleAppendReply(n0, a.parcel.to, a.parcel.args, a.reply);
    assert AnswerOk(h.acks, s.parcels, a) && ParcelOk(s.nodes.Keys, h.reigns, h.acks, a.parcel);
    assert NodeShape(s.nodes.Keys, i, n0) && LeaderOk(h.reigns, i, n0) && BookkeepingOk(s.nodes.Keys, n0, h.acks);
    assert NodeCommits(s.nodes.Keys, n0, h.reigns, h.acks) && OwnAck(h.reigns, h.acks, n0.term);
    GrowsRefl(h.reigns);
    AnsweredNode(s.nodes.Keys, n0, h.reigns, h.acks, s.parcels, a);
    SameLogKeeps(s.nodes, h.reigns, h.acks, s.parcels, s.answers, i, n);
    SameVotes(s.nodes, s.polls, h.reigns, h.reigns, h.ballots, h.counted, i, n);
  }

  lemma SameBookkeeping(peers: set<nat>, m: Node, n: Node, acks: map<Seat, nat>)
    requires BookkeepingOk(peers, m, acks) && n == m.(commit := n.commit, applied := n.applied, kv := n.kv)
    ensures BookkeepingOk(peers, n, acks)
  {
    forall p | n.role == Leader && p in peers ensures BookOk(n, acks, p) { assert BookOk(m, acks, p); }
  }
}
