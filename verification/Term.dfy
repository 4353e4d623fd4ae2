/** Terms and votes over every run of the cluster. */
module Terms {
  import opened Common
  import opened RaftNode
  import opened Handlers
  import opened Clusters

  /** A node and a term that has reached it. */
  datatype Notice = Notice(node: nat, term: nat)

  /** The term a step hands to a node: with a vote request, a vote reply, an AppendEntries or its reply. */
  function Handed(s: Cluster, step: Step): Option<Notice> {
    match step
    case AnswerVote(k) =>
      if k in s.polls && s.polls[k].Asked? then Some(Notice(k.peer, s.polls[k].args.term)) else None
    case CountVote(k) =>
      if k in s.polls && s.polls[k].Answered? then Some(Notice(k.candidate, s.polls[k].reply.term)) else None
    case DeliverAppend(p, _, _) => Some(Notice(p.to, p.args.term))
    case DeliverAnswer(a) => Some(Notice(a.parcel.args.leader, a.reply.term))
    case _ => None
  }

  /** A vote once given stays while the term does, and terms never fall. */
  ghost predicate Advances(n: Node, n': Node) {
    && n'.term >= n.term
    && (n'.term == n.term && n.votedFor != None ==> n'.votedFor == n.votedFor)
  }

  lemma ReplyAdvances(s: Cluster, a: Answer)
    requires Enabled(s, DeliverAnswer(a))
    ensures var n := s.nodes[a.parcel.args.leader];
      var n' := HandleAppendReply(n, a.parcel.to, a.parcel.args, a.reply);
      Advances(n, n') && n'.term == Later(n.term, a.reply.term) && (a.reply.term > n.term ==> n'.role == Follower)
  {
    ReplyTerm(s.nodes[a.parcel.args.leader], a.parcel.to, a.parcel.args, a.reply);
  }

  lemma DeliveryAdvances(n: Node, a: AppendArgs, truncOk: bool, appendOk: bool)
    ensures var n' := HandleAppend(n, a, truncOk, appendOk).0;
      Advances(n, n') && n'.term == Later(n.term, a.term) && (a.term >= n.term ==> n'.role == Follower)
  {
    if a.term >= n.term { AppendFields(n, a, truncOk, appendOk); }
  }

  lemma StepAdvances(s: Cluster, step: Step, i: nat)
    requires Enabled(s, step) && i in s.nodes
    ensures i in Do(s, step).nodes && Advances(s.nodes[i], Do(s, step).nodes[i])
  {
    match step
    case AnswerVote(k) => VoteAnswer(s.nodes[k.peer], s.polls[k].args);
    case DeliverAppend(p, truncOk, appendOk) => DeliveryAdvances(s.nodes[p.to], p.args, truncOk, appendOk);
    case DeliverAnswer(a) => ReplyAdvances(s, a);
    case _ =>
  }

  /** A step that hands a node a term leaves it in that term or a later one it was in already; and if the term
      was new to it, as a follower. */
  lemma StepTakesTerm(s: Cluster, step: Step)
    requires Enabled(s, step) && Handed(s, step).Some?
    ensures var h := Handed(s, step).value;
      && h.node in s.nodes && h.node in Do(s, step).nodes
      && Do(s, step).nodes[h.node].term == Later(s.nodes[h.node].term, h.term)
      && (h.term > s.nodes[h.node].term ==> Do(s, step).nodes[h.node].role == Follower)
  {
    match step
    case AnswerVote(k) => VoteAnswer(s.nodes[k.peer], s.polls[k].args);
    case DeliverAppend(p, truncOk, appendOk) => DeliveryAdvances(s.nodes[p.to], p.args, truncOk, appendOk);
    case DeliverAnswer(a) => ReplyAdvances(s, a);
    case _ =>
  }

  lemma {:induction false} RunAdvances(r: Run, j: nat, k: nat, i: nat)
    requires IsRun(r) && j <= k < |r.states| && i in r.states[j].nodes
    ensures i in r.states[k].nodes && Advances(r.states[j].nodes[i], r.states[k].nodes[i])
    decreases k - j
  {
    if j < k {
      RunAdvances(r, j, k - 1, i);
      StepAdvances(r.states[k - 1], r.steps[k - 1], i);
    }
  }

  /** Once a step of a run has handed a node a term, the node is never again in a lower one, and never leads a
      lower one; and right after the step it is in the later of the two terms, as a follower if the term was
      new to it. */
  lemma HigherTermsAreTaken(r: Run, j: nat, k: nat)
    requires IsRun(r) && j < k < |r.states| && Handed(r.states[j], r.steps[j]).Some?
    ensures var h := Handed(r.states[j], r.steps[j]).value;
      && h.node in r.states[j].nodes && h.node in r.states[j + 1].nodes && h.node in r.states[k].nodes
      && r.states[j + 1].nodes[h.node].term == Later(r.states[j].nodes[h.node].term, h.term)
      && (h.term > r.states[j].nodes[h.node].term ==> r.states[j + 1].nodes[h.node].role == Follower)
      && r.states[k].nodes[h.node].term >= h.term
  {
    StepTakesTerm(r.states[j], r.steps[j]);
    RunAdvances(r, j + 1, k, Handed(r.states[j], r.steps[j]).value.node);
  }

  /** The step answers a vote request of a candidate in a term with yes. */
  ghost predicate Grants(s: Cluster, step: Step, k: PollKey, candidate: nat, term: nat) {
    && step == AnswerVote(k) && Enabled(s, step)
    && s.polls[k].args.candidate == candidate && s.polls[k].args.term == term
    && HandleVote(s.nodes[k.peer], s.polls[k].args).1.granted
  }

  /** A node grants the vote of a term to one candidate only, at whatever moments of a run it is asked. */
  lemma OneVotePerTerm(r: Run, j: nat, k: nat, x: PollKey, y: PollKey, c: nat, d: nat, term: nat)
    requires IsRun(r) && j < k < |r.steps| && x.peer == y.peer
    requires Grants(r.states[j], r.steps[j], x, c, term) && Grants(r.states[k], r.steps[k], y, d, term)
    ensures c == d
  {
    VoteAnswer(r.states[j].nodes[x.peer], r.states[j].polls[x].args);
    assert r.states[j + 1] == Do(r.states[j], r.steps[j]);
    RunAdvances(r, j + 1, k, x.peer);
    VoteAnswer(r.states[k].nodes[y.peer], r.states[k].polls[y].args);
  }
}
