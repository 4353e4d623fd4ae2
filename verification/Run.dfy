/** Building runs step by step. */
module Runs {
  import opened Common
  import opened RaftNode
  import opened Clusters

  ghost function Last(r: Run): Cluster
    requires r.states != []
  {
    r.states[|r.states| - 1]
  }

  /** The run goes one step further. */
  lemma Extend(r: Run, step: Step) returns (r': Run)
    requires IsRun(r) && Enabled(Last(r), step)
    ensures IsRun(r') && |r'.steps| == |r.steps| + 1 && r'.steps[|r.steps|] == step
    ensures |r'.states| == |r.states| + 1 && r'.states[|r.states| - 1] == Last(r)
    ensures Last(r') == Do(Last(r), step)
    ensures r'.peers == r.peers && r'.steps == r.steps + [step] && r'.states == r.states + [Last(r')]
  {
    r' := Run(r.peers, r.states + [Do(Last(r), step)], r.steps + [step]);
    forall k | 0 <= k < |r'.steps|
      ensures Enabled(r'.states[k], r'.steps[k]) && r'.states[k + 1] == Do(r'.states[k], r'.steps[k])
    {
      if k < |r.steps| {
        assert r'.states[k] == r.states[k] && r'.states[k + 1] == r.states[k + 1] && r'.steps[k] == r.steps[k];
      }
    }
  }

  // ---- Who acts ----

  /** The node that takes a step; a lost vote exchange is nobody's. */
  function Actor(step: Step): Option<nat> {
    match step
    case Timeout(i) => Some(i)
    case AnswerVote(k) => Some(k.peer)
    case CountVote(k) => Some(k.candidate)
    case LosePoll(_) => None
    case ClientProposal(i, _) => Some(i)
    case Tick(i) => Some(i)
    case DeliverAppend(p, _, _) => Some(p.to)
    case DeliverAnswer(a) => Some(a.parcel.args.leader)
  }

  /** Only nodes of Q act: all others are down. */
  predicate ActsIn(step: Step, Q: set<nat>) {
    Actor(step) != None ==> Actor(step).value in Q
  }

  ghost predicate OnlyActing(r: Run, from: nat, Q: set<nat>) {
    forall k :: from <= k < |r.steps| ==> ActsIn(r.steps[k], Q)
  }

  /** r' is r and what comes after it while only nodes of Q act. */
  ghost predicate Continues(r: Run, r': Run, Q: set<nat>) {
    && IsRun(r) && IsRun(r') && r'.peers == r.peers
    && r.states <= r'.states && r.steps <= r'.steps && OnlyActing(r', |r.steps|, Q)
  }

  lemma ContinuesTransitive(a: Run, b: Run, c: Run, Q: set<nat>)
    requires Continues(a, b, Q) && Continues(b, c, Q)
    ensures Continues(a, c, Q)
  {
    forall k | |a.steps| <= k < |c.steps| ensures ActsIn(c.steps[k], Q) {
      if k < |b.steps| { assert c.steps[k] == b.steps[k]; }
    }
  }

  lemma Act(r: Run, step: Step, Q: set<nat>) returns (r': Run)
    requires IsRun(r) && Enabled(Last(r), step) && ActsIn(step, Q)
    ensures Continues(r, r', Q) && Last(r') == Do(Last(r), step)
    ensures |r'.steps| == |r.steps| + 1 && r'.steps[|r.steps|] == step
  {
    r' := Extend(r, step);
  }

  // ---- What single steps do ----

  lemma AfterTick(s: Cluster, i: nat, p: nat)
    requires Enabled(s, Tick(i)) && p in s.nodes[i].peers && p != s.nodes[i].id && PeerMessage(s.nodes[i], p).Some?
    ensures var s' := Do(s, Tick(i));
      s'.nodes == s.nodes && s'.clock == s.clock + 1 && s.parcels <= s'.parcels
      && Parcel(p, s.clock, PeerMessage(s.nodes[i], p).value) in s'.parcels
  {
  }

  lemma AfterProposal(s: Cluster, i: nat, data: Bytes)
    requires Enabled(s, ClientProposal(i, data))
    ensures var s' := Do(s, ClientProposal(i, data));
      s'.nodes == s.nodes[i := Propose(s.nodes[i], data)] && s'.clock == s.clock && s'.parcels == s.parcels
  {
  }

  lemma AfterDelivery(s: Cluster, p: Parcel)
    requires Enabled(s, DeliverAppend(p, true, true))
    ensures var s' := Do(s, DeliverAppend(p, true, true));
      var (n, reply) := HandleAppend(s.nodes[p.to], p.args, true, true);
      s'.nodes == s.nodes[p.to := n] && s'.parcels == s.parcels && s'.answers == s.answers + {Answer(p, reply)}
  {
  }

  lemma AfterAnswer(s: Cluster, a: Answer)
    requires Enabled(s, DeliverAnswer(a))
    ensures var s' := Do(s, DeliverAnswer(a));
      var i := a.parcel.args.leader;
      && s'.nodes == s.nodes[i := HandleAppendReply(s.nodes[i], a.parcel.to, a.parcel.args, a.reply)]
      && s'.answers == s.answers
  {
  }

  lemma AfterVote(s: Cluster, k: PollKey)
    requires Enabled(s, AnswerVote(k))
    ensures var s' := Do(s, AnswerVote(k));
      var (n, reply) := HandleVote(s.nodes[k.peer], s.polls[k].args);
      s'.nodes == s.nodes[k.peer := n] && s'.polls == s.polls[k := Answered(reply)] && s'.clock == s.clock
  {
  }

  lemma AfterCount(s: Cluster, k: PollKey)
    requires Enabled(s, CountVote(k))
    ensures var s' := Do(s, CountVote(k));
      && s'.nodes == s.nodes[k.candidate := HandleVoteReply(s.nodes[k.candidate], s.polls[k].reply)]
      && s'.polls == s.polls - {k} && s'.clock == s.clock
  {
  }
}
