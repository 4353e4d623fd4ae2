/** What the handlers of a node answer and change, said field by field in terms of the log, its offset and the
    message, for nodes with any offset. */
module Handlers {
  import opened Common
  import opened StateMachines
  import opened Quorums
  import opened RaftNode

  function Later(a: nat, b: nat): nat {
    if a > b then a else b
  }

  // ---- Votes ----

  /** The log (lastTerm, lastIndex) is at least as up to date as the node's, which counts as term 0 and the
      offset when it is empty. */
  ghost predicate AsUpToDate(lastTerm: nat, lastIndex: nat, n: Node) {
    if n.log == [] then lastTerm > 0 || lastIndex >= n.offset
    else
      var last := n.log[|n.log| - 1];
      lastTerm > last.term || (lastTerm == last.term && lastIndex >= last.index)
  }

  /** The vote is granted if and only if the term is not old, the vote of that term is free or the
      candidate's already, and the candidate's log is at least as up to date. The voter takes over a newer
      term whether it grants or not. */
  lemma VoteAnswer(n: Node, a: VoteArgs)
    ensures var (n', r) := HandleVote(n, a);
      && (r.granted <==>
            && a.term >= n.term && (a.term > n.term || n.votedFor == None || n.votedFor == Some(a.candidate))
            && AsUpToDate(a.lastTerm, a.lastIndex, n))
      && r.term == n'.term == Later(n.term, a.term)
      && n'.role == (if a.term > n.term then Follower else n.role)
      && n'.votedFor == (if r.granted then Some(a.candidate) else if a.term > n.term then None else n.votedFor)
      && n' == n.(term := n'.term, role := n'.role, votedFor := n'.votedFor)
  {
  }

  // ---- AppendEntries ----

  /** The log holds the index in memory. */
  predicate Held(n: Node, index: nat) {
    n.offset < index <= n.offset + |n.log|
  }

  function TermAt(n: Node, index: nat): nat
    requires Held(n, index)
  {
    n.log[index - n.offset - 1].term
  }

  /** The entry before the message's is held with another term. */
  ghost predicate Contradicts(n: Node, a: AppendArgs) {
    Held(n, a.prevIndex) && TermAt(n, a.prevIndex) != a.prevTerm
  }

  /** The message carries entries that would leave a hole behind the log or reach below its offset. */
  ghost predicate Detached(n: Node, a: AppendArgs) {
    a.entries != [] && !(n.offset <= a.prevIndex <= n.offset + |n.log|)
  }

  /** Entry i of the message is held with another term. */
  ghost predicate Differs(n: Node, a: AppendArgs, i: nat) {
    i < |a.entries| && Held(n, a.prevIndex + 1 + i) && TermAt(n, a.prevIndex + 1 + i) != a.entries[i].term
  }

  /** Entry i of the message is held with the same term. */
  ghost predicate Repeats(n: Node, a: AppendArgs, i: nat) {
    i < |a.entries| && Held(n, a.prevIndex + 1 + i) && TermAt(n, a.prevIndex + 1 + i) == a.entries[i].term
  }

  ghost predicate Conflicts(n: Node, a: AppendArgs) {
    exists i :: Differs(n, a, i)
  }

  /** The message goes on behind the end of the log. */
  ghost predicate Longer(n: Node, a: AppendArgs) {
    a.prevIndex + |a.entries| > n.offset + |n.log|
  }

  /** The message attaches and what it carries is to be written: everything from the first difference on. */
  ghost predicate Writes(n: Node, a: AppendArgs) {
    a.entries != [] && (Conflicts(n, a) || Longer(n, a))
  }

  /** What the merge loop finds, said without the loop. */
  lemma ScanFinds(n: Node, a: AppendArgs)
    requires WellFormed(a) && !Detached(n, a)
    ensures var s := ScanFrom(n, a.entries, 0);
      && (s.conflict <==> Conflicts(n, a)) && (Rest(n, a.entries) != [] <==> Writes(n, a))
      && (s.conflict ==> Differs(n, a, s.from))
      && forall i: nat :: i < s.from ==> Repeats(n, a, i)
  {
    ScanMeaning(n, a, 0);
    var s := ScanFrom(n, a.entries, 0);
    var k := s.from;
    forall i: nat | i < k ensures Repeats(n, a, i) { assert AgreesAt(n, a, i); }
    assert k < |a.entries| ==> (AgreesAt(n, a, k) <==> Repeats(n, a, k));
    assert s.conflict ==> Differs(n, a, k);
    if i: nat :| Differs(n, a, i) {
      assert i < k ==> Repeats(n, a, i);
      assert Held(n, a.prevIndex + 1 + k);
    } else if 0 < |a.entries| == k {
      assert AgreesAt(n, a, k - 1);
    }
  }

  lemma SameConflicts(n: Node, m: Node, a: AppendArgs)
    requires m.log == n.log && m.offset == n.offset
    ensures Conflicts(n, a) <==> Conflicts(m, a)
  {
    forall i: nat ensures Differs(n, a, i) <==> Differs(m, a, i) {}
  }

  /** A message of an old term is refused and changes nothing. Any other is answered with its term and
      accepted if and only if it does not contradict the log and is not detached from it, and the disk finds
      the record before a conflict and writes what is to be written. Only a detached message is refused with
      a hint, the index behind the log; and a message refused for what it is leaves the log alone. */
  lemma AppendAnswer(n: Node, a: AppendArgs, truncOk: bool, appendOk: bool)
    requires WellFormed(a)
    ensures var (n', r) := HandleAppend(n, a, truncOk, appendOk);
      if a.term < n.term then n' == n && r == AppendReply(n.term, false, 0)
      else
        && r.term == a.term
        && (r.success <==> !Contradicts(n, a) && !Detached(n, a) && (Conflicts(n, a) ==> truncOk)
                           && (Writes(n, a) ==> appendOk))
        && r.conflictIndex == (if !Contradicts(n, a) && Detached(n, a) then n.offset + |n.log| + 1 else 0)
        && (Contradicts(n, a) || Detached(n, a) ==> n'.log == n.log && n'.commit == n.commit && n'.applied == n.applied)
  {
    if a.term >= n.term {
      var m := Acknowledge(n, a);
      assert PrevMismatch(m, a) <==> Contradicts(n, a);
      GapMeaning(m, a);
      assert Gap(m, a) <==> Detached(n, a);
      SameConflicts(n, m, a);
      if !Detached(n, a) { ScanFinds(m, a); }
      CatchUpFrame(FollowCommit(Cut(m, a.entries).(log := Cut(m, a.entries).log + Rest(m, a.entries)), a.leaderCommit));
    }
  }

  /** Entry k is the first of the message that the log lacks or holds with another term. */
  ghost predicate FirstNew(n: Node, a: AppendArgs, k: nat) {
    k < |a.entries| && !Repeats(n, a, k) && forall i: nat :: i < k ==> Repeats(n, a, i)
  }

  /** The handler follows the sender: its term, as a follower without a vote in a newer term, and who leads. */
  lemma AppendFields(n: Node, a: AppendArgs, truncOk: bool, appendOk: bool)
    requires a.term >= n.term
    ensures var n' := HandleAppend(n, a, truncOk, appendOk).0;
      n' == n.(term := a.term, role := Follower, leaderId := a.leader,
               votedFor := if a.term > n.term then None else n.votedFor,
               log := n'.log, commit := n'.commit, applied := n'.applied, kv := n'.kv)
  {
    MergeFrame(Acknowledge(n, a), a, truncOk, appendOk);
  }

  lemma MergeFrame(m: Node, a: AppendArgs, truncOk: bool, appendOk: bool)
    ensures var n' := Merge(m, a, truncOk, appendOk).0;
      n' == m.(log := n'.log, commit := n'.commit, applied := n'.applied, kv := n'.kv)
  {
    var merged := m.(log := Cut(m, a.entries).log + Rest(m, a.entries));
    CommitFrame(merged, a.leaderCommit);
    CatchUpFrame(FollowCommit(merged, a.leaderCommit));
  }

  lemma CommitFrame(n: Node, leaderCommit: nat)
    ensures FollowCommit(n, leaderCommit) == n.(commit := FollowCommit(n, leaderCommit).commit)
  {
  }

  /** What is left of an accepted message. */
  lemma AcceptedMerge(n: Node, a: AppendArgs)
    requires WellFormed(a) && a.term >= n.term && !Contradicts(n, a) && !Detached(n, a)
    ensures var m := Acknowledge(n, a);
      HandleAppend(n, a, true, true).0 ==
      CatchUp(FollowCommit(m.(log := Cut(m, a.entries).log + Rest(m, a.entries)), a.leaderCommit))
  {
    var m := Acknowledge(n, a);
    AppendAnswer(n, a, true, true);
    assert Cut(m, a.entries).(log := Cut(m, a.entries).log + Rest(m, a.entries))
        == m.(log := Cut(m, a.entries).log + Rest(m, a.entries));
  }

  /** An accepted message leaves the log as it is if it holds nothing new; otherwise the log goes on from the
      first new entry with the message's, and ends where the message ends. */
  lemma AppendedLog(n: Node, a: AppendArgs)
    requires WellFormed(a) && a.term >= n.term && !Contradicts(n, a) && !Detached(n, a)
    ensures var log := HandleAppend(n, a, true, true).0.log;
      && (!Writes(n, a) ==> log == n.log)
      && (Writes(n, a) ==> n.offset + |log| == a.prevIndex + |a.entries|)
      && (forall k: nat :: FirstNew(n, a, k) ==>
            Writes(n, a) && n.offset < a.prevIndex + 1 + k <= n.offset + |n.log| + 1
            && log == n.log[..a.prevIndex + k - n.offset] + a.entries[k..])
  {
    var m := Acknowledge(n, a);
    var merged := Cut(m, a.entries).log + Rest(m, a.entries);
    AcceptedMerge(n, a);
    ScanFinds(m, a);
    SameConflicts(n, m, a);
    CommitFrame(m.(log := merged), a.leaderCommit);
    CatchUpFrame(FollowCommit(m.(log := merged), a.leaderCommit));
    MergeShape(m, a);
    var s := ScanFrom(m, a.entries, 0).from;
    MergedFrom(m, a, s, merged);
    forall k: nat | FirstNew(n, a, k)
      ensures Writes(n, a) && n.offset < a.prevIndex + 1 + k <= n.offset + |n.log| + 1
      ensures merged == n.log[..a.prevIndex + k - n.offset] + a.entries[k..]
    {
      FirstNewIsScan(n, m, a, k);
    }
  }

  lemma FirstNewIsScan(n: Node, m: Node, a: AppendArgs, k: nat)
    requires m.log == n.log && m.offset == n.offset && FirstNew(n, a, k) && WellFormed(a) && !Detached(m, a)
    ensures k == ScanFrom(m, a.entries, 0).from
  {
    ScanMeaning(m, a, 0);
    var s := ScanFrom(m, a.entries, 0).from;
    assert k < s ==> AgreesAt(m, a, k);
    assert s < k ==> Repeats(n, a, s);
  }

  lemma MergedFrom(m: Node, a: AppendArgs, k: nat, merged: seq<Entry>)
    requires IsMergeAt(m, a, k, merged)
    ensures k == |a.entries| ==> merged == m.log
    ensures k < |a.entries| ==>
      && m.offset < a.prevIndex + 1 + k <= m.offset + |m.log| + 1
      && merged == m.log[..a.prevIndex + k - m.offset] + a.entries[k..]
      && m.offset + |merged| == a.prevIndex + |a.entries|
  {
  }

  /** It moves the commit index to the leader's, or to the end of the log if that comes first, and applies the
      entries in between that have not been applied. */
  lemma AppendedCommit(n: Node, a: AppendArgs)
    requires WellFormed(a) && a.term >= n.term && !Contradicts(n, a) && !Detached(n, a)
    requires Contiguous(n.log, n.offset)
    ensures var n' := HandleAppend(n, a, true, true).0;
      var last := n.offset + |n'.log|;
      && n'.commit == (if a.leaderCommit <= n.commit then n.commit else if a.leaderCommit <= last then a.leaderCommit
                       else last)
      && n'.applied == Later(n.applied, n'.commit)
      && (n.offset <= n.applied < n'.commit <= last ==>
            n'.kv == ReplayIndices(n.kv, n'.log, n.offset, n.applied, n'.commit))
      && (n'.commit <= n.applied ==> n'.kv == n.kv)
  {
    var m := Acknowledge(n, a);
    var merged := m.(log := Cut(m, a.entries).log + Rest(m, a.entries));
    var f := FollowCommit(merged, a.leaderCommit);
    AcceptedMerge(n, a);
    MergeRefinesSimpleMerge(m, a);
    CommitCapped(merged, a.leaderCommit);
    CatchUpFrame(f);
    if f.commit <= f.applied {
      NothingToApply(f);
    } else if f.offset <= f.applied && f.commit <= f.offset + |f.log| {
      CatchUpEffects(f);
    }
  }

  lemma CommitCapped(n: Node, leaderCommit: nat)
    requires Contiguous(n.log, n.offset)
    ensures var last := n.offset + |n.log|;
      FollowCommit(n, leaderCommit) ==
      n.(commit := if leaderCommit <= n.commit then n.commit else if leaderCommit <= last then leaderCommit else last)
  {
  }

  /** After a refusal with a hint the sender resumes at the hint: a message that begins there and knows the
      last entry, if there is one in memory, is accepted. */
  lemma ResumesAtHint(n: Node, a: AppendArgs, b: AppendArgs)
    requires WellFormed(a) && WellFormed(b) && a.term >= n.term && b.term >= a.term
    requires HandleAppend(n, a, true, true).1.conflictIndex > 0
    requires b.prevIndex + 1 == HandleAppend(n, a, true, true).1.conflictIndex
    requires n.log != [] ==> b.prevTerm == n.log[|n.log| - 1].term
    ensures HandleAppend(HandleAppend(n, a, true, true).0, b, true, true).1.success
  {
    AppendAnswer(n, a, true, true);
    AppendFields(n, a, true, true);
    AppendAnswer(HandleAppend(n, a, true, true).0, b, true, true);
  }

  /** Indices the log does not hold are skipped when it is their turn to be applied. */
  lemma {:induction false} MissingIsSkipped(n: Node)
    requires forall index :: n.applied < index <= n.commit ==> !Held(n, index)
    ensures CatchUp(n) == n.(applied := Later(n.applied, n.commit))
    decreases n.commit - n.applied
  {
    if n.applied < n.commit {
      var m := ApplyNext(n);
      assert !Held(n, n.applied + 1);
      forall index | m.applied < index <= m.commit ensures !Held(m, index) { assert !Held(n, index); }
      MissingIsSkipped(m);
    }
  }

  // ---- Heartbeats ----

  /** What a tick sends to a peer carries the term, the name and the commit index of the leader, and its whole
      log from nextIndex on behind the term of the entry before. A peer whose next entry is compacted away
      gets an empty message from the beginning; a nextIndex behind the end of the log by more than one is a
      crash. */
  lemma HeartbeatMeaning(n: Node, p: nat)
    ensures var next := Slot(n.next, p);
      match PeerMessage(n, p)
      case None => next > n.offset + |n.log| + 1
      case Some(a) =>
        && next <= n.offset + |n.log| + 1
        && a.term == n.term && a.leader == n.id && a.leaderCommit == n.commit
        && if next <= n.offset then a.prevIndex == 0 && a.prevTerm == 0 && a.entries == []
           else
             && a.prevIndex == next - 1 && a.entries == n.log[next - 1 - n.offset..]
             && a.prevTerm == (if Held(n, next - 1) then TermAt(n, next - 1) else 0)
             && (Contiguous(n.log, n.offset) ==> WellFormed(a))
  {
  }

  /** Whether a follower accepts the message of a tick, by its log and the leader's. The leader does not know
      the term of the last entry it compacted away and sends 0, so a follower that still holds that entry
      refuses. */
  lemma TickIsAccepted(l: Node, f: Node, p: nat, prev: nat, a: AppendArgs)
    requires Contiguous(l.log, l.offset) && f.term <= l.term && PeerMessage(l, p) == Some(a)
    requires Slot(l.next, p) == prev + 1 && l.offset <= prev
    ensures HandleAppend(f, a, true, true).1.success <==>
            && (Held(f, prev) ==> TermAt(f, prev) == if Held(l, prev) then TermAt(l, prev) else 0)
            && (prev == l.offset + |l.log| || f.offset <= prev <= f.offset + |f.log|)
  {
    TickFields(l, p, prev, a);
    AcceptedExactly(f, a);
  }

  lemma TickFields(l: Node, p: nat, prev: nat, a: AppendArgs)
    requires Contiguous(l.log, l.offset) && PeerMessage(l, p) == Some(a)
    requires Slot(l.next, p) == prev + 1 && l.offset <= prev
    ensures WellFormed(a) && a.term == l.term && a.prevIndex == prev
    ensures a.prevTerm == if Held(l, prev) then TermAt(l, prev) else 0
    ensures a.entries == [] <==> prev == l.offset + |l.log|
  {
    HeartbeatMeaning(l, p);
  }

  lemma AcceptedExactly(n: Node, a: AppendArgs)
    requires WellFormed(a) && a.term >= n.term
    ensures HandleAppend(n, a, true, true).1.success <==> !Contradicts(n, a) && !Detached(n, a)
  {
    AppendAnswer(n, a, true, true);
  }

  // ---- Replies ----

  /** A reply of a newer term than the message's makes the node a follower of that term without a vote; any
      other leaves term, role and vote. A confirmation of entries notes the last of them, a hint sets
      nextIndex, and a refusal without one moves it back by one but not below 1; no other peer's slots move,
      and neither does the log. */
  lemma ReplyAnswer(n: Node, p: nat, sent: AppendArgs, r: AppendReply)
    requires WellFormed(sent)
    ensures var m := RecordReply(n, p, sent, r);
      var reached := sent.prevIndex + |sent.entries|;
      && (if r.term > sent.term then m.term == r.term && m.role == Follower && m.votedFor == None
          else m.term == n.term && m.role == n.role && m.votedFor == n.votedFor)
      && (forall q :: q != p ==> (q in m.next <==> q in n.next) && Slot(m.next, q) == Slot(n.next, q))
      && (forall q :: q != p ==> (q in m.matched <==> q in n.matched) && Slot(m.matched, q) == Slot(n.matched, q))
      && Slot(m.matched, p) == (if r.success && sent.entries != [] then reached else Slot(n.matched, p))
      && Slot(m.next, p) == (if r.success then if sent.entries != [] then reached + 1 else Slot(n.next, p)
                             else if r.conflictIndex > 0 then r.conflictIndex
                             else if Slot(n.next, p) > 1 then Slot(n.next, p) - 1 else Slot(n.next, p))
      && m == n.(term := m.term, role := m.role, votedFor := m.votedFor, next := m.next, matched := m.matched)
  {
  }

  /** The commit rule that follows never touches what the reply settled. */
  lemma ReplyTerm(n: Node, p: nat, sent: AppendArgs, r: AppendReply)
    ensures var n' := HandleAppendReply(n, p, sent, r);
      && (if r.term > sent.term then n'.term == r.term && n'.role == Follower && n'.votedFor == None
          else n'.term == n.term && n'.role == n.role && n'.votedFor == n.votedFor)
      && n'.log == n.log && n'.offset == n.offset && n'.id == n.id && n'.peers == n.peers
      && n'.next == RecordReply(n, p, sent, r).next && n'.matched == RecordReply(n, p, sent, r).matched
  {
    AdvanceFrame(RecordReply(n, p, sent, r));
  }

  lemma AdvanceFrame(n: Node)
    ensures var n' := TryAdvance(n); n' == n.(commit := n'.commit, applied := n'.applied, kv := n'.kv)
  {
    CatchUpFrame(n.(commit := MajorityPick(n.matched, n.LastIndex())));
  }

  // ---- The commit rule ----

  /** The commit index becomes the middle one of the recorded indices and the leader's own last index if the
      entry there is held and of the leader's term, and the entries up to it are applied; otherwise nothing
      changes. */
  lemma CommitRule(n: Node, pick: nat)
    requires Contiguous(n.log, n.offset) && IsMajorityPick(n.matched, n.offset + |n.log|, pick)
    ensures var n' := TryAdvance(n);
      if Held(n, pick) && TermAt(n, pick) == n.term then
        && n' == n.(commit := pick, applied := Later(n.applied, pick), kv := n'.kv)
        && (n.offset <= n.applied < pick ==> n'.kv == ReplayIndices(n.kv, n.log, n.offset, n.applied, pick))
        && (pick <= n.applied ==> n'.kv == n.kv)
      else n' == n
  {
    assert n.LastIndex() == n.offset + |n.log|;
    PickIsUnique(n.matched, n.offset + |n.log|, pick, MajorityPick(n.matched, n.LastIndex()));
    if Held(n, pick) && TermAt(n, pick) == n.term { AppliedThrough(n.(commit := pick)); }
  }

  lemma AppliedThrough(f: Node)
    ensures CatchUp(f) == f.(applied := Later(f.applied, f.commit), kv := CatchUp(f).kv)
    ensures f.offset <= f.applied < f.commit <= f.offset + |f.log| ==>
      CatchUp(f).kv == ReplayIndices(f.kv, f.log, f.offset, f.applied, f.commit)
    ensures f.commit <= f.applied ==> CatchUp(f).kv == f.kv
  {
    CatchUpFrame(f);
    if f.commit <= f.applied {
      NothingToApply(f);
    } else if f.offset <= f.applied && f.commit <= f.offset + |f.log| {
      CatchUpEffects(f);
    }
  }

  // ---- Elections ----

  /** A vote reply of a newer term makes the node a follower of that term without a vote. Otherwise a granted
      vote is counted, and the node becomes leader of its term if it is a candidate and has more than half of
      the votes: every peer is then expected to lack exactly the no-op that the log ends with. */
  lemma VoteCounted(n: Node, r: VoteReply)
    requires Contiguous(n.log, n.offset)
    ensures var n' := HandleVoteReply(n, r);
      var last := n.offset + |n.log|;
      if r.term > n.term then n' == n.(term := r.term, role := Follower, votedFor := None)
      else if !r.granted then n' == n
      else if n.role == Candidate && 2 * (n.votes + 1) > |n.peers| then
        && n' == n.(votes := n.votes + 1, role := Leader, log := n.log + [Entry(n.term, last + 1, NO_OP)],
                    next := n'.next, matched := n'.matched)
        && (forall p :: p in n.peers ==> p in n'.next && n'.next[p] == last + 1)
        && (forall p :: p in n.peers ==> p in n'.matched && n'.matched[p] == 0)
        && (forall p :: p !in n.peers ==> Slot(n'.next, p) == Slot(n.next, p))
        && (forall p :: p !in n.peers ==> Slot(n'.matched, p) == Slot(n.matched, p))
      else n' == n.(votes := n.votes + 1)
  {
    assert n.LastIndex() == n.offset + |n.log|;
  }

  /** A candidate after k votes of its own term. */
  function AfterVotes(n: Node, k: nat): Node
    decreases k
  {
    if k == 0 then n else HandleVoteReply(AfterVotes(n, k - 1), VoteReply(n.term, true))
  }

  /** An election: with its own vote and k others a node leads the next term if and only if they are more than
      half of all, and its log is then the old one and a no-op of the new term. */
  lemma {:induction false} ElectedByMajority(n: Node, k: nat)
    requires Contiguous(n.log, n.offset)
    ensures var c := AfterVotes(BecomeCandidate(n), k);
      && c.term == n.term + 1 && c.votes == k + 1 && c.votedFor == Some(n.id) && c.peers == n.peers
      && c.offset == n.offset && c.commit == n.commit && c.applied == n.applied && c.kv == n.kv
      && (c.role == Leader <==> k > 0 && 2 * (k + 1) > |n.peers|) && (c.role != Leader ==> c.role == Candidate)
      && c.log == n.log + if c.role == Leader then [Entry(n.term + 1, n.offset + |n.log| + 1, NO_OP)] else []
  {
    if k > 0 {
      ElectedByMajority(n, k - 1);
      var c := AfterVotes(BecomeCandidate(n), k - 1);
      assert Contiguous(c.log, c.offset);
      VoteCounted(c, VoteReply(n.term + 1, true));
    } else {
      assert n.log + [] == n.log;
    }
  }

  /** The request a candidate sends claims exactly the log it has, unless that is empty behind a snapshot: then
      it claims to have nothing at all. */
  lemma RequestMeaning(n: Node)
    requires Contiguous(n.log, n.offset)
    ensures var a := VoteRequest(n);
      && a.term == n.term && a.candidate == n.id
      && (n.log != [] ==> a.lastIndex == n.offset + |n.log| && a.lastTerm == n.log[|n.log| - 1].term)
      && (n.log == [] ==> a.lastIndex == 0 && a.lastTerm == 0)
      && (AsUpToDate(a.lastTerm, a.lastIndex, n) <==> n.log != [] || n.offset == 0)
  {
  }

  /** So a candidate that has compacted its whole log is refused by every node that has a snapshot, or an entry
      of a real term - by a node with the very same log, too. */
  lemma CompactedCandidateIsRefused(c: Node, v: Node)
    requires c.log == [] && c.offset > 0
    requires if v.log == [] then v.offset > 0 else v.log[|v.log| - 1].term > 0
    ensures !HandleVote(v, VoteRequest(BecomeCandidate(c))).1.granted
  {
    VoteAnswer(v, VoteRequest(BecomeCandidate(c)));
  }
}
