/** What one AppendEntries does to a follower whose log was never compacted, seen against the leader's log. */
module Replication {
  import opened Common
  import opened StateMachines
  import opened RaftNode

  /** Both logs hold the same first m entries. */
  predicate Agree(a: seq<Entry>, b: seq<Entry>, m: nat) {
    m <= |a| && m <= |b| && a[..m] == b[..m]
  }

  /** Log matching: entries with the same position and term have the same past. */
  ghost predicate LogMatch(a: seq<Entry>, b: seq<Entry>) {
    forall k :: 0 <= k < |a| && k < |b| && a[k].term == b[k].term ==> a[..k + 1] == b[..k + 1]
  }

  /** A message carrying a contiguous piece of the log `lead`. */
  ghost predicate Carries(a: AppendArgs, lead: seq<Entry>) {
    && Contiguous(lead, 0)
    && a.prevIndex + |a.entries| <= |lead|
    && a.entries == lead[a.prevIndex..a.prevIndex + |a.entries|]
    && (a.prevIndex > 0 ==> a.prevTerm == lead[a.prevIndex - 1].term)
  }

  lemma AgreePrefix(a: seq<Entry>, b: seq<Entry>, m: nat, k: nat)
    requires Agree(a, b, m) && k <= m
    ensures Agree(a, b, k)
  {
    assert a[..k] == a[..m][..k];
    assert b[..k] == b[..m][..k];
  }

  lemma AgreeTransitive(a: seq<Entry>, b: seq<Entry>, c: seq<Entry>, m: nat)
    requires Agree(a, b, m) && Agree(b, c, m)
    ensures Agree(a, c, m)
  {
  }

  /** The first k entries of the message, all held with the same terms, give agreement up to there. */
  lemma AgreementReaches(n: Node, a: AppendArgs, lead: seq<Entry>, k: nat)
    requires n.offset == 0 && LogMatch(n.log, lead) && Carries(a, lead)
    requires !PrevMismatch(n, a) && a.prevIndex <= |n.log|
    requires k <= |a.entries| && AgreeOn(n, a, k)
    ensures Agree(n.log, lead, a.prevIndex + k)
  {
    if k > 0 {
      assert AgreesAt(n, a, k - 1);
      var i := a.prevIndex + k - 1;
      assert a.entries[k - 1] == lead[i];
      assert n.log[..i + 1] == lead[..i + 1];
    } else if a.prevIndex > 0 {
      var i := a.prevIndex - 1;
      assert n.Has(a.prevIndex);
      assert n.log[..i + 1] == lead[..i + 1];
    }
  }

  /** The log after the merge: untouched, or an initial part of the leader's log - and it keeps every
      initial part that the follower already shared with the leader. */
  ghost predicate Follows(log: seq<Entry>, log': seq<Entry>, lead: seq<Entry>) {
    && (log' == log || (|log'| <= |lead| && log' == lead[..|log'|]))
    && forall m: nat :: Agree(log, lead, m) ==> Agree(log', lead, m)
  }

  /** Replacing everything from a disagreement (or the end of the log) on by more of the leader's log. */
  lemma ReplacedFollows(log: seq<Entry>, lead: seq<Entry>, p: nat, q: nat)
    requires Agree(log, lead, p) && p <= q <= |lead|
    requires p < q && p < |log| ==> log[p] != lead[p]
    requires p == q ==> p < |lead| && (p < |log| ==> log[p] != lead[p])
    ensures Follows(log, lead[..q], lead)
  {
    forall m: nat | Agree(log, lead, m) ensures Agree(lead[..q], lead, m) {
      if m > p { AgreeAtPosition(log, lead, m, p); assert false; }
      assert lead[..q][..m] == lead[..m];
    }
  }

  lemma MergedIsLead(n: Node, a: AppendArgs, lead: seq<Entry>, k: nat, log: seq<Entry>)
    requires n.offset == 0 && Carries(a, lead) && IsMergeAt(n, a, k, log) && k < |a.entries|
    requires Agree(n.log, lead, a.prevIndex + k)
    ensures log == lead[..a.prevIndex + |a.entries|]
  {
    var p, q := a.prevIndex + k, a.prevIndex + |a.entries|;
    assert n.Pos(a.prevIndex + 1 + k) == p;
    assert a.entries[k..] == lead[p..q];
    assert log == lead[..p] + lead[p..q];
  }

  lemma MergeFollows(n: Node, a: AppendArgs, lead: seq<Entry>)
    requires n.offset == 0 && LogMatch(n.log, lead) && Carries(a, lead)
    requires !PrevMismatch(n, a) && Attaches(n, a)
    ensures Follows(n.log, Cut(n, a.entries).log + Rest(n, a.entries), lead)
    ensures a.entries != [] ==> Agree(Cut(n, a.entries).log + Rest(n, a.entries), lead, a.prevIndex + |a.entries|)
  {
    var k := ScanFrom(n, a.entries, 0).from;
    CarriedIsWellFormed(a, lead);
    MergeShape(n, a);
    MergeFollowsAt(n, a, lead, k, Cut(n, a.entries).log + Rest(n, a.entries));
  }

  lemma MergeFollowsAt(n: Node, a: AppendArgs, lead: seq<Entry>, k: nat, log: seq<Entry>)
    requires n.offset == 0 && LogMatch(n.log, lead) && Carries(a, lead)
    requires !PrevMismatch(n, a) && Attaches(n, a) && IsMergeAt(n, a, k, log)
    ensures Follows(n.log, log, lead)
    ensures a.entries != [] ==> Agree(log, lead, a.prevIndex + |a.entries|)
  {
    if a.entries != [] {
      AgreementReaches(n, a, lead, k);
      var p, q := a.prevIndex + k, a.prevIndex + |a.entries|;
      if k < |a.entries| {
        MergedIsLead(n, a, lead, k, log);
        assert n.Pos(a.prevIndex + 1 + k) == p && a.entries[k] == lead[p];
        assert p < |n.log| ==> n.log[p] != lead[p];
        ReplacedFollows(n.log, lead, p, q);
      }
    }
  }

  lemma AgreeAtPosition(a: seq<Entry>, b: seq<Entry>, m: nat, p: nat)
    requires Agree(a, b, m) && p < m
    ensures a[p] == b[p]
  {
    assert a[p] == a[..m][p] && b[p] == b[..m][p];
  }

  lemma CarriedIsWellFormed(a: AppendArgs, lead: seq<Entry>)
    requires Carries(a, lead)
    ensures WellFormed(a)
  {
    forall k | 0 <= k < |a.entries| ensures a.entries[k].index == a.prevIndex + 1 + k {
      assert a.entries[k] == lead[a.prevIndex + k];
    }
  }

  /** The same for a merge that stopped after cutting because the disk failed. */
  lemma CutFollows(n: Node, a: AppendArgs, lead: seq<Entry>)
    requires n.offset == 0 && LogMatch(n.log, lead) && Carries(a, lead)
    requires !PrevMismatch(n, a)
    ensures Follows(n.log, Cut(n, a.entries).log, lead)
  {
    CarriedIsWellFormed(a, lead);
    ScanMeaning(n, a, 0);
    var s := ScanFrom(n, a.entries, 0);
    if s.conflict {
      var c := a.prevIndex + s.from;
      assert n.Has(a.prevIndex + 1 + s.from) && !AgreesAt(n, a, s.from);
      AgreementReaches(n, a, lead, s.from);
      assert a.entries[s.from] == lead[c];
      assert Cut(n, a.entries).log == n.log[..c] == lead[..c];
      ReplacedFollows(n.log, lead, c, c);
    }
  }

  /** Everything the cluster proofs need to know about one delivery: m is the follower after it has taken
      over the message's term, n' the follower when the handler returns, r its reply. */
  ghost predicate Delivered(m: Node, a: AppendArgs, lead: seq<Entry>, n': Node, r: AppendReply) {
    && r.term == a.term
    && n' == m.(log := n'.log, commit := n'.commit, applied := n'.applied, kv := n'.kv)
    && Follows(m.log, n'.log, lead)
    && (!r.success ==> n' == m.(log := n'.log) && r.conflictIndex <= a.prevIndex)
    && (r.success ==>
          && (a.entries != [] ==> Agree(n'.log, lead, a.prevIndex + |a.entries|))
          && (a.entries == [] ==> n'.log == m.log)
          && n'.commit == (if a.leaderCommit > m.commit
                           then (if a.leaderCommit < |n'.log| then a.leaderCommit else |n'.log|) else m.commit)
          && n'.applied == (if m.applied < n'.commit then n'.commit else m.applied)
          && (n'.commit <= |n'.log| ==>
                n'.kv == if m.applied < n'.commit then Replay(m.kv, n'.log[m.applied..n'.commit]) else m.kv))
  }

  lemma LastIsLength(n: Node)
    requires n.offset == 0 && Contiguous(n.log, 0)
    ensures n.LastIndex() == |n.log|
  {
  }

  lemma LeadPrefixContiguous(log: seq<Entry>, log': seq<Entry>, lead: seq<Entry>)
    requires Contiguous(log, 0) && Contiguous(lead, 0) && Follows(log, log', lead)
    ensures Contiguous(log', 0)
  {
    if log' != log {
      forall k | 0 <= k < |log'| ensures log'[k].index == 1 + k { assert log'[k] == lead[k]; }
    }
  }

  lemma AcceptEffect(m: Node, a: AppendArgs, lead: seq<Entry>, merged: Node)
    requires m.offset == 0 && Contiguous(m.log, 0) && LogMatch(m.log, lead) && Carries(a, lead)
    requires m.term == a.term && m.role == Follower
    requires !PrevMismatch(m, a) && Attaches(m, a)
    requires merged == m.(log := Cut(m, a.entries).log + Rest(m, a.entries))
    ensures Delivered(m, a, lead, CatchUp(FollowCommit(merged, a.leaderCommit)), AppendReply(m.term, true, 0))
  {
    MergeFollows(m, a, lead);
    if a.entries == [] {
      assert Rest(m, a.entries) == [] && m.log + [] == m.log;
    }
    LeadPrefixContiguous(m.log, merged.log, lead);
    LastIsLength(merged);
    AppliedAfter(merged, a.leaderCommit);
  }

  lemma DeliveryEffect(n: Node, a: AppendArgs, lead: seq<Entry>, truncOk: bool, appendOk: bool)
    requires n.offset == 0 && Contiguous(n.log, 0)
    requires LogMatch(n.log, lead) && Carries(a, lead)
    requires n.term <= a.term
    ensures Delivered(Acknowledge(n, a), a, lead, HandleAppend(n, a, truncOk, appendOk).0,
                      HandleAppend(n, a, truncOk, appendOk).1)
  {
    AcknowledgedEffect(Acknowledge(n, a), a, lead, truncOk, appendOk);
  }

  lemma AcknowledgedEffect(m: Node, a: AppendArgs, lead: seq<Entry>, truncOk: bool, appendOk: bool)
    requires m.offset == 0 && Contiguous(m.log, 0) && LogMatch(m.log, lead) && Carries(a, lead)
    requires m.term == a.term && m.role == Follower
    ensures Delivered(m, a, lead, Merge(m, a, truncOk, appendOk).0, Merge(m, a, truncOk, appendOk).1)
  {
    CarriedIsWellFormed(a, lead);
    if !PrevMismatch(m, a) {
      GapMeaning(m, a);
      if ScanFrom(m, a.entries, 0).conflict && !truncOk {
        CutFollows(m, a, lead);
      } else if Attaches(m, a) {
        if Rest(m, a.entries) != [] && !appendOk {
          MergeFollows(m, a, lead);
        } else {
          AcceptEffect(m, a, lead, Cut(m, a.entries).(log := Cut(m, a.entries).log + Rest(m, a.entries)));
        }
      }
    }
  }

  /** Following the leader's commit index, when the commit index so far lies in the log. */
  lemma AppliedAfter(n: Node, leaderCommit: nat)
    requires n.offset == 0 && n.LastIndex() == |n.log|
    ensures var n' := CatchUp(FollowCommit(n, leaderCommit));
      && n' == n.(commit := n'.commit, applied := n'.applied, kv := n'.kv)
      && n'.commit == (if leaderCommit > n.commit
                       then (if leaderCommit < |n.log| then leaderCommit else |n.log|) else n.commit)
      && n'.applied == (if n.applied < n'.commit then n'.commit else n.applied)
      && (n'.commit <= |n.log| ==>
            n'.kv == if n.applied < n'.commit then Replay(n.kv, n.log[n.applied..n'.commit]) else n.kv)
  {
    var m := FollowCommit(n, leaderCommit);
    CatchUpFrame(m);
    if m.applied < m.commit <= |m.log| { CatchUpReplays(m, m.applied, m.commit); }
  }
}
