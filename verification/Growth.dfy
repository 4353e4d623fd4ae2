/** How the invariants carry over when one node changes, leaders' logs grow and confirmations grow. */
module Growth {
  import opened Common
  import opened Quorums
  import opened RaftNode
  import opened Replication
  import opened Clusters
  import opened Invariants

  /** Leaders' logs only grow, by entries of their own term; new terms may get a leader. */
  ghost predicate Grows(reigns: Reigns, reigns': Reigns) {
    forall t {:trigger GrowsAt(reigns, reigns', t)} :: t in reigns ==> GrowsAt(reigns, reigns', t)
  }

  ghost predicate GrowsAt(reigns: Reigns, reigns': Reigns, t: nat)
    requires t in reigns
  {
    && t in reigns'
    && reigns'[t] == reigns[t].(log := reigns'[t].log)
    && |reigns[t].log| <= |reigns'[t].log| && reigns'[t].log[..|reigns[t].log|] == reigns[t].log
    && forall k :: |reigns[t].log| <= k < |reigns'[t].log| ==> reigns'[t].log[k].term == t
  }

  /** Confirmations only go up. */
  ghost predicate AcksGrow(acks: map<Seat, nat>, acks': map<Seat, nat>) {
    forall q, T {:trigger Acked(acks', q, T)} :: Acked(acks, q, T) <= Acked(acks', q, T)
  }

  /** Only node i's confirmation in term t may change, and only upwards. */
  ghost predicate AckStep(acks: map<Seat, nat>, acks': map<Seat, nat>, i: nat, t: nat) {
    AcksGrow(acks, acks') && forall q, T :: q != i || T != t ==> Acked(acks', q, T) == Acked(acks, q, T)
  }

  lemma GrowsRefl(reigns: Reigns)
    ensures Grows(reigns, reigns)
  {
    forall t | t in reigns ensures GrowsAt(reigns, reigns, t) {
      assert reigns[t].log[..|reigns[t].log|] == reigns[t].log;
    }
  }

  lemma GrowsTransitive(A: Reigns, B: Reigns, C: Reigns)
    requires Grows(A, B) && Grows(B, C)
    ensures Grows(A, C)
  {
    forall t | t in A ensures GrowsAt(A, C, t) {
      assert GrowsAt(A, B, t) && GrowsAt(B, C, t);
      assert C[t].log[..|A[t].log|] == C[t].log[..|B[t].log|][..|A[t].log|];
      forall k | |A[t].log| <= k < |C[t].log| ensures C[t].log[k].term == t {
        if k < |B[t].log| { assert C[t].log[..|B[t].log|][k] == C[t].log[k]; }
      }
    }
  }

  lemma AgreeGrows(reigns: Reigns, reigns': Reigns, t: nat, log: seq<Entry>, m: nat)
    requires Grows(reigns, reigns') && t in reigns && m <= |reigns[t].log|
    ensures t in reigns' && m <= |reigns'[t].log| && (Agree(log, reigns[t].log, m) <==> Agree(log, reigns'[t].log, m))
  {
    assert GrowsAt(reigns, reigns', t);
    assert reigns'[t].log[..m] == reigns[t].log[..m];
  }

  lemma JustifiedGrows(reigns: Reigns, reigns': Reigns, log: seq<Entry>)
    requires Grows(reigns, reigns') && Justified(reigns, log)
    ensures Justified(reigns', log)
  {
    forall k | 0 <= k < |log| ensures JustifiedAt(reigns', log, k) {
      assert JustifiedAt(reigns, log, k);
      AgreeGrows(reigns, reigns', log[k].term, log, k + 1);
    }
  }

  /** A leader that lacks confirmed entries never gets them later: what it adds carries its own term. */
  lemma LackGrows(reigns: Reigns, reigns': Reigns, T: nat, m: nat, V: nat)
    requires ReignsOk(reigns) && Grows(reigns, reigns') && T in reigns && V in reigns && T < V
    requires m <= |reigns[T].log| && !Agree(reigns[V].log, reigns[T].log, m)
    ensures V in reigns' && T in reigns' && !Agree(reigns'[V].log, reigns'[T].log, m)
  {
    assert GrowsAt(reigns, reigns', V) && ReignOk(reigns, T);
    AgreeGrows(reigns, reigns', T, reigns'[V].log, m);
    if Agree(reigns'[V].log, reigns[T].log, m) {
      var n := |reigns[V].log|;
      if n < m {
        AgreeAtPosition(reigns'[V].log, reigns[T].log, m, n);
      }
    }
  }

  lemma KeptGrows(reigns: Reigns, reigns': Reigns, log: seq<Entry>, T: nat, m: nat, upTo: nat, upTo': nat)
    requires ReignsOk(reigns) && Grows(reigns, reigns') && Kept(reigns, log, T, m, upTo) && upTo <= upTo'
    requires m <= |reigns[T].log|
    ensures Kept(reigns', log, T, m, upTo')
  {
    AgreeGrows(reigns, reigns', T, log, m);
    if !Agree(log, reigns[T].log, m) {
      var V :| T < V <= upTo && V in reigns && !Agree(reigns[V].log, reigns[T].log, m);
      LackGrows(reigns, reigns', T, m, V);
    }
  }

  lemma RetainsGrows(reigns: Reigns, reigns': Reigns, acks: map<Seat, nat>, acks': map<Seat, nat>,
                     q: nat, log: seq<Entry>, T: nat, upTo: nat, upTo': nat)
    requires ReignsOk(reigns) && Grows(reigns, reigns') && Retains(reigns, acks, q, log, T, upTo) && upTo <= upTo'
    requires T in reigns && Acked(acks, q, T) <= |reigns[T].log| && Acked(acks', q, T) == Acked(acks, q, T)
    ensures Retains(reigns', acks', q, log, T, upTo')
  {
    forall m: nat | m <= Acked(acks', q, T) ensures Kept(reigns', log, T, m, upTo') {
      assert Kept(reigns, log, T, m, upTo);
      KeptGrows(reigns, reigns', log, T, m, upTo, upTo');
    }
  }

  lemma NothingAcked(reigns: Reigns, acks: map<Seat, nat>, q: nat, log: seq<Entry>, T: nat, upTo: nat)
    requires T in reigns && Acked(acks, q, T) == 0
    ensures Retains(reigns, acks, q, log, T, upTo)
  {
    assert Agree(log, reigns[T].log, 0);
  }

  lemma ChosenGrows(peers: set<nat>, reigns: Reigns, reigns': Reigns, acks: map<Seat, nat>, acks': map<Seat, nat>,
                    T: nat, m: nat)
    requires Grows(reigns, reigns') && AcksGrow(acks, acks')
    requires Chosen(peers, reigns, acks, T, m)
    ensures Chosen(peers, reigns', acks', T, m)
  {
    assert GrowsAt(reigns, reigns', T);
    assert reigns'[T].log[..|reigns[T].log|][m - 1] == reigns[T].log[m - 1];
    var Q :| IsQuorum(peers, Q) && AllAcked(acks, Q, T, m);
    assert AllAcked(acks', Q, T, m);
  }

  lemma CommittedGrows(peers: set<nat>, reigns: Reigns, reigns': Reigns, acks: map<Seat, nat>, acks': map<Seat, nat>,
                       p: seq<Entry>, bound: nat, bound': nat)
    requires Grows(reigns, reigns') && AcksGrow(acks, acks') && bound <= bound'
    requires Committed(peers, reigns, acks, p, bound)
    ensures Committed(peers, reigns', acks', p, bound')
  {
    if p != [] {
      var T, m := CommittedWitness(peers, reigns, acks, p, bound);
      ChosenGrows(peers, reigns, reigns', acks, acks', T, m);
      assert GrowsAt(reigns, reigns', T);
      assert reigns'[T].log[..|p|] == reigns[T].log[..|p|];
    }
  }

  // ---- One node changes ----

  lemma LogsUpdate(nodes: map<nat, Node>, i: nat, n: Node, reigns: Reigns, reigns': Reigns)
    requires i in nodes && LogsOk(nodes, reigns) && Grows(reigns, reigns')
    requires LogOk(reigns', n)
    ensures LogsOk(nodes[i := n], reigns')
  {
    forall j | j in nodes && j != i ensures LogOk(reigns', nodes[j]) {
      assert LogOk(reigns, nodes[j]);
      JustifiedGrows(reigns, reigns', nodes[j].log);
    }
  }

  lemma AckedInReign(nodes: map<nat, Node>, reigns: Reigns, acks: map<Seat, nat>, q: nat, T: nat)
    requires AcksOk(nodes, reigns, acks)
    ensures T in reigns ==> Acked(acks, q, T) <= |reigns[T].log|
    ensures Acked(acks, q, T) > 0 ==> T in reigns && q in nodes && T <= nodes[q].term
  {
    if Seat(q, T) in acks { assert AckOk(nodes, reigns, acks, Seat(q, T)); }
  }

  lemma NodesRetainUpdate(nodes: map<nat, Node>, i: nat, n: Node, reigns: Reigns, reigns': Reigns,
                          acks: map<Seat, nat>, acks': map<Seat, nat>)
    requires i in nodes && NodesRetain(nodes, reigns, acks) && AcksOk(nodes, reigns, acks)
    requires ReignsOk(reigns) && Grows(reigns, reigns') && AckStep(acks, acks', i, n.term)
    requires forall T :: T in reigns' ==> Retains(reigns', acks', i, n.log, T, n.term)
    ensures NodesRetain(nodes[i := n], reigns', acks')
  {
    forall q, T | q in nodes && q != i && T in reigns'
      ensures Retains(reigns', acks', q, nodes[q].log, T, nodes[q].term)
    {
      AckedInReign(nodes, reigns, acks, q, T);
      if T in reigns {
        assert Retains(reigns, acks, q, nodes[q].log, T, nodes[q].term);
        RetainsGrows(reigns, reigns', acks, acks', q, nodes[q].log, T, nodes[q].term, nodes[q].term);
      } else {
        NothingAcked(reigns', acks', q, nodes[q].log, T, nodes[q].term);
      }
    }
  }

  lemma BallotsRetainUpdate(nodes: map<nat, Node>, ballots: map<Seat, Ballot>, i: nat, t: nat, reigns: Reigns,
                            reigns': Reigns,
                            acks: map<Seat, nat>, acks': map<Seat, nat>)
    requires BallotsRetain(ballots, reigns, acks) && BallotsOk(nodes, reigns, ballots) && AcksOk(nodes, reigns, acks)
    requires ReignsOk(reigns) && Grows(reigns, reigns') && AckStep(acks, acks', i, t)
    requires i in nodes && nodes[i].term <= t
    ensures BallotsRetain(ballots, reigns', acks')
  {
    forall seat, T | seat in ballots && T in reigns' && T < seat.term
      ensures Retains(reigns', acks', seat.node, ballots[seat].voterLog, T, seat.term)
    {
      assert BallotOk(nodes, reigns, seat, ballots[seat]);
      var log := ballots[seat].voterLog;
      AckedInReign(nodes, reigns, acks, seat.node, T);
      if T in reigns {
        assert Retains(reigns, acks, seat.node, log, T, seat.term);
        RetainsGrows(reigns, reigns', acks, acks', seat.node, log, T, seat.term, seat.term);
      } else {
        NothingAcked(reigns', acks', seat.node, log, T, seat.term);
      }
    }
  }

  lemma RollsRetainUpdate(nodes: map<nat, Node>, ballots: map<Seat, Ballot>, i: nat, t: nat, reigns: Reigns,
                          reigns': Reigns,
                          acks: map<Seat, nat>, acks': map<Seat, nat>)
    requires RollsRetain(reigns, acks) && RollsOk(nodes.Keys, reigns, ballots) && BallotsOk(nodes, reigns, ballots)
    requires AcksOk(nodes, reigns, acks) && ReignsOk(reigns) && Grows(reigns, reigns') && AckStep(acks, acks', i, t)
    requires i in nodes && nodes[i].term <= t
    requires forall U, q, T :: U in reigns' && U !in reigns && q in reigns'[U].rolls && T in reigns' && T < U ==>
                               RollRetains(reigns', acks', U, q, T)
    ensures RollsRetain(reigns', acks')
  {
    forall U, q, T | U in reigns' && q in reigns'[U].rolls && T in reigns' && T < U
      ensures RollRetains(reigns', acks', U, q, T)
    {
      if U in reigns {
        assert GrowsAt(reigns, reigns', U) && RollOk(nodes.Keys, reigns, ballots, U);
        assert BallotOk(nodes, reigns, Seat(q, U), ballots[Seat(q, U)]);
        var log := reigns[U].rolls[q];
        AckedInReign(nodes, reigns, acks, q, T);
        if T in reigns {
          assert RollRetains(reigns, acks, U, q, T);
          RetainsGrows(reigns, reigns', acks, acks', q, log, T, U - 1, U - 1);
        } else {
          NothingAcked(reigns', acks', q, log, T, U - 1);
        }
      }
    }
  }

  lemma CommitsUpdate(nodes: map<nat, Node>, i: nat, n: Node, t: nat, reigns: Reigns, reigns': Reigns,
                      acks: map<Seat, nat>, acks': map<Seat, nat>)
    requires i in nodes && CommitsOk(nodes, reigns, acks)
    requires Grows(reigns, reigns') && AckStep(acks, acks', i, t)
    requires NodeCommits(nodes.Keys, n, reigns', acks')
    ensures CommitsOk(nodes[i := n], reigns', acks')
  {
    assert nodes[i := n].Keys == nodes.Keys;
    forall j | j in nodes && j != i ensures NodeCommits(nodes.Keys, nodes[j], reigns', acks') {
      assert NodeCommits(nodes.Keys, nodes[j], reigns, acks);
      SameCommits(nodes.Keys, nodes[j], nodes[j], i, t, reigns, reigns', acks, acks');
    }
  }

  /** A node keeps its commitments when its term grows and its log keeps the committed and applied part. */
  lemma SameCommits(peers: set<nat>, n: Node, n': Node, i: nat, t: nat, reigns: Reigns, reigns': Reigns,
                    acks: map<Seat, nat>, acks': map<Seat, nat>)
    requires NodeCommits(peers, n, reigns, acks) && Grows(reigns, reigns') && AckStep(acks, acks', i, t)
    requires n'.term >= n.term && n'.commit == n.commit && n'.applied == n.applied && n'.kv == n.kv
    requires Agree(n.log, n'.log, n.commit) && Agree(n.log, n'.log, n.applied)
    ensures NodeCommits(peers, n', reigns', acks')
  {
    CommittedGrows(peers, reigns, reigns', acks, acks', n.log[..n.commit], n.term, n'.term);
    CommittedGrows(peers, reigns, reigns', acks, acks', n.log[..n.applied], n.term, n'.term);
  }

  lemma ParcelsUpdate(peers: set<nat>, parcels: set<Parcel>, i: nat, t: nat, reigns: Reigns, reigns': Reigns,
                      acks: map<Seat, nat>, acks': map<Seat, nat>)
    requires ParcelsOk(peers, reigns, acks, parcels)
    requires Grows(reigns, reigns') && ReignsOk(reigns') && AckStep(acks, acks', i, t)
    ensures ParcelsOk(peers, reigns', acks', parcels)
  {
    forall p | p in parcels ensures ParcelOk(peers, reigns', acks', p) {
      var T := p.args.term;
      assert ParcelOk(peers, reigns, acks, p);
      assert GrowsAt(reigns, reigns', T) && ReignOk(reigns', T);
      var log, log' := reigns[T].log, reigns'[T].log;
      var q := p.args.prevIndex + |p.args.entries|;
      assert log'[p.args.prevIndex..q] == log'[..|log|][p.args.prevIndex..q];
      assert p.args.prevIndex > 0 ==> log'[..|log|][p.args.prevIndex - 1] == log[p.args.prevIndex - 1];
      assert log'[..p.args.leaderCommit] == log[..p.args.leaderCommit];
      CommittedGrows(peers, reigns, reigns', acks, acks', log[..p.args.leaderCommit], T, T);
    }
  }

  lemma AnswersUpdate(parcels: set<Parcel>, answers: set<Answer>, i: nat, t: nat, acks: map<Seat, nat>,
                      acks': map<Seat, nat>)
    requires AnswersOk(acks, parcels, answers) && AckStep(acks, acks', i, t)
    ensures AnswersOk(acks', parcels, answers)
  {
    forall a | a in answers ensures AnswerOk(acks', parcels, a) { assert AnswerOk(acks, parcels, a); }
  }

  lemma BooksUpdate(nodes: map<nat, Node>, i: nat, n: Node, t: nat, acks: map<Seat, nat>, acks': map<Seat, nat>)
    requires i in nodes && BooksOk(nodes, acks) && AckStep(acks, acks', i, t)
    requires BookkeepingOk(nodes.Keys, n, acks')
    ensures BooksOk(nodes[i := n], acks')
  {
    assert nodes[i := n].Keys == nodes.Keys;
    forall j | j in nodes && j != i ensures BookkeepingOk(nodes.Keys, nodes[j], acks') {
      assert BookkeepingOk(nodes.Keys, nodes[j], acks);
      SameBooks(nodes.Keys, nodes[j], i, t, acks, acks');
    }
  }

  lemma SameBooks(peers: set<nat>, n: Node, i: nat, t: nat, acks: map<Seat, nat>, acks': map<Seat, nat>)
    requires BookkeepingOk(peers, n, acks) && AckStep(acks, acks', i, t)
    ensures BookkeepingOk(peers, n, acks')
  {
    forall p | n.role == Leader && p in peers ensures BookOk(n, acks', p) { assert BookOk(n, acks, p); }
  }

  lemma RollsUpdate(peers: set<nat>, reigns: Reigns, reigns': Reigns, ballots: map<Seat, Ballot>,
                    ballots': map<Seat, Ballot>)
    requires RollsOk(peers, reigns, ballots) && Grows(reigns, reigns')
    requires forall seat :: seat in ballots ==> seat in ballots' && ballots'[seat] == ballots[seat]
    requires forall t :: t in reigns' && t !in reigns ==> RollOk(peers, reigns', ballots', t)
    ensures RollsOk(peers, reigns', ballots')
  {
    forall t | t in reigns' ensures RollOk(peers, reigns', ballots', t) {
      if t in reigns {
        assert RollOk(peers, reigns, ballots, t) && GrowsAt(reigns, reigns', t);
        var r, r' := reigns[t], reigns'[t];
        assert r.start > 0 ==> r'.log[..|r.log|][r.start - 1] == r.log[r.start - 1];
        forall q | q in r.rolls ensures Justified(reigns', r.rolls[q]) { JustifiedGrows(reigns, reigns', r.rolls[q]); }
      }
    }
  }

  lemma BallotsGrow(nodes: map<nat, Node>, reigns: Reigns, reigns': Reigns, ballots: map<Seat, Ballot>)
    requires BallotsOk(nodes, reigns, ballots) && Grows(reigns, reigns')
    ensures BallotsOk(nodes, reigns', ballots)
  {
    forall seat | seat in ballots ensures BallotOk(nodes, reigns', seat, ballots[seat]) {
      assert BallotOk(nodes, reigns, seat, ballots[seat]);
      JustifiedGrows(reigns, reigns', ballots[seat].voterLog);
    }
  }
}
