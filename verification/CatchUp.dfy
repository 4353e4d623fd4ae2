/** How fast a follower catches up with a leader while nothing else moves: heartbeat rounds between the two,
    with the follower's disk, and without snapshots. */
module CatchingUp {
  import opened Common
  import opened StateMachines
  import opened Quorums
  import opened RaftNode
  import opened Handlers
  import opened Replication
  import opened WalFormat
  import opened Memory
  import opened Servers

  datatype Link = Link(leader: Node, follower: Server)

  /** One round trip: the tick's message to peer p, the follower's handler, the leader's handler for the
      reply. */
  ghost function Round(s: Link, p: nat): Link {
    match PeerMessage(s.leader, p)
    case None => s
    case Some(a) =>
      var (f, r) := StoreAppend(s.follower, a);
      Link(HandleAppendReply(s.leader, p, a, r), f)
  }

  /** The follower holds the leader's whole log. */
  ghost predicate CaughtUpWith(s: Link) {
    Agree(s.follower.node.log, s.leader.log, |s.leader.log|)
  }

  /** After k rounds it does. */
  ghost predicate CaughtUpAfter(s: Link, p: nat, k: nat) {
    CaughtUpWith(Iterate(RoundsWith(p), s, k))
  }

  /** Before the last of k rounds the two were still linked. */
  ghost predicate LinkedBefore(s: Link, p: nat, k: nat)
    requires k > 0
  {
    Linked(Iterate(RoundsWith(p), s, k - 1), p)
  }

  ghost function RoundsWith(p: nat): Link -> Link {
    s => Round(s, p)
  }

  ghost function Iterate<S>(step: S -> S, s: S, k: nat): S
    decreases k
  {
    if k == 0 then s else Iterate(step, step(s), k - 1)
  }

  /** A step from a good state reaches the goal or stays good and lowers the budget. */
  ghost predicate Improves<S(!new)>(step: S -> S, good: S -> bool, done: S -> bool, budget: S -> nat, s: S) {
    good(s) ==> budget(s) >= 1 && (done(step(s)) || (good(step(s)) && budget(step(s)) < budget(s)))
  }

  /** Such steps reach the goal within the budget. */
  lemma {:induction false} Settles<S(!new)>(step: S -> S, good: S -> bool, done: S -> bool, budget: S -> nat, s: S)
    returns (k: nat)
    requires good(s) && forall x :: Improves(step, good, done, budget, x)
    ensures 1 <= k <= budget(s) && done(Iterate(step, s, k)) && good(Iterate(step, s, k - 1))
    decreases budget(s)
  {
    assert Improves(step, good, done, budget, s);
    if done(step(s)) {
      k := 1;
      assert Iterate(step, step(s), 0) == step(s) && Iterate(step, s, 0) == s;
    } else {
      var j := Settles(step, good, done, budget, step(s));
      k := j + 1;
    }
  }

  /** There is a record to truncate after for every entry but the first. */
  ghost predicate OnDisk(f: Server) {
    forall i :: 1 <= i <= |f.node.log| ==> Listed(f.disk.wal, i)
  }

  ghost predicate Listed(wal: seq<Entry>, index: nat) {
    TruncateList(wal, index).Some?
  }

  ghost predicate LogsOk(l: Node, f: Server) {
    && l.offset == 0 && f.node.offset == 0 && Contiguous(l.log, 0) && Contiguous(f.node.log, 0)
    && LogMatch(f.node.log, l.log) && OnDisk(f)
  }

  ghost predicate Linked(s: Link, p: nat) {
    && LogsOk(s.leader, s.follower)
    && s.follower.node.term <= s.leader.term
    && p in s.leader.next && 1 <= s.leader.next[p] <= |s.leader.log|
  }

  /** The rounds still needed at most, with nextIndex `next` and a follower's log of length `len`. */
  function Budget(next: nat, len: nat): nat {
    if len == 0 then if next <= 1 then 1 else 2
    else if next > len + 1 then len + 3
    else next + 1
  }

  // ---- One round ----

  lemma MessageOf(s: Link, p: nat)
    requires Linked(s, p)
    ensures var x := s.leader.next[p];
      var a := PeerMessage(s.leader, p);
      && a.Some? && Carries(a.value, s.leader.log) && WellFormed(a.value)
      && a.value.term == s.leader.term && a.value.prevIndex == x - 1
      && a.value.entries != [] && x - 1 + |a.value.entries| == |s.leader.log|
  {
    var l, x := s.leader, s.leader.next[p];
    var a := PeerMessage(l, p).value;
    assert a.entries == l.log[x - 1..] == l.log[x - 1..|l.log|];
    CarriedIsWellFormed(a, l.log);
  }

  /** The reply that sends nextIndex back to the end of the follower's log. */
  lemma AfterGap(f: Server, a: AppendArgs)
    requires a.term >= f.node.term && f.node.offset == 0
    requires WellFormed(a) && a.entries != [] && a.prevIndex > |f.node.log|
    ensures StoreAppend(f, a) == (f.(node := Acknowledge(f.node, a)), AppendReply(a.term, false, |f.node.log| + 1))
  {
    GapMeaning(Acknowledge(f.node, a), a);
  }

  lemma AfterMismatch(f: Server, a: AppendArgs)
    requires a.term >= f.node.term && PrevMismatch(Acknowledge(f.node, a), a)
    ensures StoreAppend(f, a) == (f.(node := Acknowledge(f.node, a)), AppendReply(a.term, false, 0))
  {
  }

  /** A conflict at index 1 has no record to truncate after: the log is emptied in memory only. */
  lemma AfterFailedTruncation(f: Server, a: AppendArgs)
    requires a.term >= f.node.term && f.node.offset == 0 && Contiguous(f.node.log, 0) && OnDisk(f)
    requires WellFormed(a) && !PrevMismatch(Acknowledge(f.node, a), a)
    requires Truncated(Acknowledge(f.node, a), f.disk.wal, a.entries) == None
    ensures a.prevIndex == 0 && f.node.log != []
    ensures StoreAppend(f, a) == (f.(node := Acknowledge(f.node, a).(log := [])), AppendReply(a.term, false, 0))
  {
    var m := Acknowledge(f.node, a);
    var c := ScanFrom(m, a.entries, 0);
    var i := a.entries[c.from].index;
    assert i == a.prevIndex + 1 + c.from;
    assert 1 <= i - 1 <= |f.node.log| ==> Listed(f.disk.wal, i - 1);
    assert m.log[..0] == [];
  }

  lemma AfterMerge(f: Server, a: AppendArgs, lead: seq<Entry>)
    requires a.term >= f.node.term && f.node.offset == 0 && Contiguous(f.node.log, 0) && LogMatch(f.node.log, lead)
    requires Carries(a, lead) && WellFormed(a) && a.entries != [] && a.prevIndex <= |f.node.log|
    requires !PrevMismatch(Acknowledge(f.node, a), a)
    requires Truncated(Acknowledge(f.node, a), f.disk.wal, a.entries).Some?
    ensures Agree(StoreAppend(f, a).0.node.log, lead, a.prevIndex + |a.entries|)
  {
    var m := Acknowledge(f.node, a);
    GapMeaning(m, a);
    StoredLog(f, a);
    MergeFollows(m, a, lead);
  }

  lemma LeaderKeepsLog(l: Node, p: nat, a: AppendArgs, r: AppendReply)
    ensures HandleAppendReply(l, p, a, r).log == l.log
  {
    var m := RecordReply(l, p, a, r);
    if CanAdvance(m) { CatchUpFrame(m.(commit := MajorityPick(m.matched, m.LastIndex()))); }
  }

  /** What the leader makes of a rejection. */
  lemma AfterRejection(l: Node, p: nat, a: AppendArgs, r: AppendReply)
    requires !r.success && r.term == a.term == l.term && p in l.next && l.next[p] >= 1
    ensures var l' := HandleAppendReply(l, p, a, r);
      && l' == l.(next := l'.next)
      && p in l'.next && l'.next[p] == if r.conflictIndex > 0 then r.conflictIndex
                                       else if l.next[p] > 1 then l.next[p] - 1 else 1
  {
  }

  /** What one rejected round leaves. */
  ghost predicate Rejected(s: Link, t: Link, p: nat, r: AppendReply, log: seq<Entry>) {
    && !r.success && r.term == s.leader.term
    && t.follower == s.follower.(node := t.follower.node) && t.follower.node.log == log
    && t.follower.node.offset == 0 && t.follower.node.term == s.leader.term
    && t.leader == s.leader.(next := t.leader.next)
    && p in s.leader.next && p in t.leader.next
    && t.leader.next[p] == if r.conflictIndex > 0 then r.conflictIndex
                                                else if s.leader.next[p] > 1 then s.leader.next[p] - 1 else 1
  }

  lemma RejectedIsLinked(s: Link, t: Link, p: nat, r: AppendReply, log: seq<Entry>)
    requires Linked(s, p) && Rejected(s, t, p, r, log) && (log == s.follower.node.log || log == [])
    requires t.leader.next[p] <= |s.leader.log|
    requires r.conflictIndex > 0 || s.leader.next[p] > 1 || log == []
    ensures Linked(t, p)
  {
  }

  lemma RejectedRound(s: Link, p: nat, a: AppendArgs, r: AppendReply, log: seq<Entry>)
    requires Linked(s, p) && PeerMessage(s.leader, p) == Some(a) && a.term == s.leader.term
    requires StoreAppend(s.follower, a) == (s.follower.(node := Acknowledge(s.follower.node, a).(log := log)), r)
    requires !r.success && r.term == a.term
    ensures Rejected(s, Round(s, p), p, r, log)
  {
    AfterRejection(s.leader, p, a, r);
  }

  /** The three ways a round can fail. */
  lemma RejectionProgress(s: Link, p: nat, a: AppendArgs)
    requires Linked(s, p) && PeerMessage(s.leader, p) == Some(a) && a.term == s.leader.term
    requires WellFormed(a) && a.entries != [] && a.prevIndex == s.leader.next[p] - 1
    requires var m := Acknowledge(s.follower.node, a);
      PrevMismatch(m, a) || a.prevIndex > |s.follower.node.log| || Truncated(m, s.follower.disk.wal, a.entries) == None
    ensures var t := Round(s, p);
      Linked(t, p) && Budget(t.leader.next[p], |t.follower.node.log|) < Budget(s.leader.next[p], |s.follower.node.log|)
  {
    var f := s.follower;
    var m := Acknowledge(f.node, a);
    var r := StoreAppend(f, a).1;
    if PrevMismatch(m, a) {
      AfterMismatch(f, a);
      RejectedRound(s, p, a, r, f.node.log);
      RejectedIsLinked(s, Round(s, p), p, r, f.node.log);
    } else if a.prevIndex > |f.node.log| {
      AfterGap(f, a);
      RejectedRound(s, p, a, r, f.node.log);
      RejectedIsLinked(s, Round(s, p), p, r, f.node.log);
    } else {
      AfterFailedTruncation(f, a);
      RejectedRound(s, p, a, r, []);
      RejectedIsLinked(s, Round(s, p), p, r, []);
    }
  }

  ghost predicate Progress(s: Link, t: Link, p: nat)
    requires Linked(s, p)
  {
    || CaughtUpWith(t)
    || (Linked(t, p)
        && Budget(t.leader.next[p], |t.follower.node.log|) < Budget(s.leader.next[p], |s.follower.node.log|))
  }

  /** One round either brings the follower to agree with the leader's whole log, or strictly lowers the
      measure. */
  lemma RoundProgress(s: Link, p: nat)
    requires Linked(s, p)
    ensures Round(s, p).leader.log == s.leader.log && Progress(s, Round(s, p), p)
  {
    MessageOf(s, p);
    RoundKeepsLog(s, p);
    var a := PeerMessage(s.leader, p).value;
    var m := Acknowledge(s.follower.node, a);
    if PrevMismatch(m, a) || a.prevIndex > |s.follower.node.log|
       || Truncated(m, s.follower.disk.wal, a.entries) == None
    {
      RejectionProgress(s, p, a);
    } else {
      MergeRound(s, p, a);
    }
  }

  lemma RoundKeepsLog(s: Link, p: nat)
    ensures Round(s, p).leader.log == s.leader.log
  {
    match PeerMessage(s.leader, p)
    case None =>
    case Some(a) => LeaderKeepsLog(s.leader, p, a, StoreAppend(s.follower, a).1);
  }

  lemma MergeRound(s: Link, p: nat, a: AppendArgs)
    requires s.follower.node.offset == 0 && Contiguous(s.follower.node.log, 0)
    requires LogMatch(s.follower.node.log, s.leader.log)
    requires s.follower.node.term <= s.leader.term && PeerMessage(s.leader, p) == Some(a) && a.term == s.leader.term
    requires WellFormed(a) && Carries(a, s.leader.log) && a.entries != [] && a.prevIndex + |a.entries| == |s.leader.log|
    requires a.prevIndex <= |s.follower.node.log| && !PrevMismatch(Acknowledge(s.follower.node, a), a)
    requires Truncated(Acknowledge(s.follower.node, a), s.follower.disk.wal, a.entries).Some?
    ensures CaughtUpWith(Round(s, p))
  {
    var (f, r) := StoreAppend(s.follower, a);
    LeaderKeepsLog(s.leader, p, a, r);
    AfterMerge(s.follower, a, s.leader.log);
    Arrived(Link(HandleAppendReply(s.leader, p, a, r), f), f.node.log, s.leader.log);
  }

  lemma Arrived(t: Link, log: seq<Entry>, lead: seq<Entry>)
    requires t.follower.node.log == log && t.leader.log == lead && Agree(log, lead, |lead|)
    ensures CaughtUpWith(t)
  {
  }

  /** The round is refused: the follower lacks the entry before nextIndex or has it with another term, or a
      conflict is at index 1, which has no record before it. */
  ghost predicate Refused(s: Link, p: nat)
    requires p in s.leader.next
  {
    var f, x := s.follower.node.log, s.leader.next[p];
    || x - 1 > |f|
    || (2 <= x <= |s.leader.log| && f[x - 2].term != s.leader.log[x - 2].term)
    || (x == 1 && f != [] && s.leader.log != [] && f[0].term != s.leader.log[0].term && !Listed(s.follower.disk.wal, 0))
  }

  /** One round trip is enough if and only if it is not refused. */
  lemma OneRoundIsEnough(s: Link, p: nat)
    requires Linked(s, p)
    ensures CaughtUpWith(Round(s, p)) <==> !Refused(s, p)
  {
    MessageOf(s, p);
    RoundKeepsLog(s, p);
    var a := PeerMessage(s.leader, p).value;
    var m := Acknowledge(s.follower.node, a);
    RefusedMessage(s, p, a);
    if Refused(s, p) {
      RefusedRound(s, p, a);
    } else {
      MergeRound(s, p, a);
    }
  }

  lemma RefusedMessage(s: Link, p: nat, a: AppendArgs)
    requires Linked(s, p) && PeerMessage(s.leader, p) == Some(a) && WellFormed(a) && Carries(a, s.leader.log)
    requires a.entries != [] && a.prevIndex == s.leader.next[p] - 1
    ensures var m := Acknowledge(s.follower.node, a);
      Refused(s, p) <==>
        || PrevMismatch(m, a) || a.prevIndex > |s.follower.node.log|
        || Truncated(m, s.follower.disk.wal, a.entries) == None
  {
    TruncationFails(Acknowledge(s.follower.node, a), s.follower, a);
  }

  /** There is no record to truncate after only for a conflict at index 1. */
  lemma TruncationFails(m: Node, f: Server, a: AppendArgs)
    requires OnDisk(f) && m.log == f.node.log && m.offset == 0 && WellFormed(a) && a.entries != []
    ensures Truncated(m, f.disk.wal, a.entries) == None <==>
            a.prevIndex == 0 && m.log != [] && m.log[0].term != a.entries[0].term && !Listed(f.disk.wal, 0)
  {
    ScanMeaning(m, a, 0);
    var c := ScanFrom(m, a.entries, 0);
    assert m.log != [] && a.prevIndex == 0 ==> (AgreesAt(m, a, 0) <==> m.log[0].term == a.entries[0].term);
    if c.conflict {
      var i := a.prevIndex + 1 + c.from;
      assert Truncated(m, f.disk.wal, a.entries).Some? <==> Listed(f.disk.wal, i - 1);
      assert 1 <= i - 1 <= |m.log| ==> Listed(f.disk.wal, i - 1);
    }
  }

  lemma RefusedRound(s: Link, p: nat, a: AppendArgs)
    requires Linked(s, p) && PeerMessage(s.leader, p) == Some(a) && a.term == s.leader.term
    requires WellFormed(a) && a.entries != [] && a.prevIndex == s.leader.next[p] - 1 && Refused(s, p)
    requires var m := Acknowledge(s.follower.node, a);
      PrevMismatch(m, a) || a.prevIndex > |s.follower.node.log| || Truncated(m, s.follower.disk.wal, a.entries) == None
    ensures !CaughtUpWith(Round(s, p))
  {
    var f := s.follower;
    var m := Acknowledge(f.node, a);
    RoundKeepsLog(s, p);
    if PrevMismatch(m, a) {
      AfterMismatch(f, a);
      DifferAt(f.node.log, s.leader.log, a.prevIndex - 1);
    } else if a.prevIndex > |f.node.log| {
      AfterGap(f, a);
    } else {
      AfterFailedTruncation(f, a);
    }
  }

  lemma DifferAt(a: seq<Entry>, b: seq<Entry>, i: nat)
    requires i < |a| && i < |b| && a[i] != b[i]
    ensures !Agree(a, b, |b|)
  {
  }

  // ---- All rounds ----

  lemma CatchesUpWithin(s: Link, p: nat) returns (k: nat)
    requires Linked(s, p)
    ensures 1 <= k <= BudgetOf(s, p)
    ensures CaughtUpAfter(s, p, k) && LinkedBefore(s, p, k)
  {
    forall x ensures Improves(RoundsWith(p), LinkedWith(p), GoalReached(), BudgetWith(p), x) { RoundImproves(x, p); }
    k := Settles(RoundsWith(p), LinkedWith(p), GoalReached(), BudgetWith(p), s);
  }

  lemma RoundImproves(s: Link, p: nat)
    ensures Improves(RoundsWith(p), LinkedWith(p), GoalReached(), BudgetWith(p), s)
  {
    if Linked(s, p) { RoundProgress(s, p); }
  }

  ghost function LinkedWith(p: nat): Link -> bool {
    s => Linked(s, p)
  }

  ghost function GoalReached(): Link -> bool {
    s => CaughtUpWith(s)
  }

  ghost function BudgetWith(p: nat): Link -> nat {
    s => BudgetOf(s, p)
  }

  /** The rounds still needed at most. */
  ghost function BudgetOf(s: Link, p: nat): nat {
    if p in s.leader.next then Budget(s.leader.next[p], |s.follower.node.log|) else 0
  }

  /** A follower whose log is an initial part of the leader's needs at most two rounds. */
  lemma PrefixCatchesUp(s: Link, p: nat) returns (k: nat)
    requires Linked(s, p) && s.follower.node.log <= s.leader.log
    ensures 1 <= k <= 2 && CaughtUpAfter(s, p, k) && LinkedBefore(s, p, k)
  {
    var t := PrefixRound(s, p);
    TwoRounds(RoundsWith(p), s);
    if CaughtUpWith(t) {
      k := 1;
    } else {
      var u := PrefixRound(t, p);
      k := 2;
    }
  }

  lemma TwoRounds<S>(step: S -> S, s: S)
    ensures Iterate(step, s, 0) == s && Iterate(step, s, 1) == step(s) && Iterate(step, s, 2) == step(step(s))
  {
    assert Iterate(step, step(s), 1) == Iterate(step, step(step(s)), 0);
  }

  ghost predicate Backed(s: Link, t: Link, p: nat)
    requires Linked(s, p)
  {
    && s.leader.next[p] > |s.follower.node.log| + 1
    && Linked(t, p) && t.leader.log == s.leader.log && t.follower.node.log == s.follower.node.log
    && t.leader.next[p] == |t.follower.node.log| + 1
  }

  lemma PrefixRound(s: Link, p: nat) returns (t: Link)
    requires Linked(s, p) && s.follower.node.log <= s.leader.log
    ensures t == RoundsWith(p)(s) && (CaughtUpWith(t) || Backed(s, t, p))
  {
    t := Round(s, p);
    MessageOf(s, p);
    var a := PeerMessage(s.leader, p).value;
    if a.prevIndex > |s.follower.node.log| {
      GapProgress(s, p, a);
    } else {
      PrefixMerges(s, p, a);
    }
  }

  lemma PrefixMerges(s: Link, p: nat, a: AppendArgs)
    requires Linked(s, p) && PeerMessage(s.leader, p) == Some(a) && a.term == s.leader.term
    requires WellFormed(a) && Carries(a, s.leader.log) && a.entries != [] && a.prevIndex + |a.entries| == |s.leader.log|
    requires s.follower.node.log <= s.leader.log && a.prevIndex <= |s.follower.node.log|
    ensures CaughtUpWith(Round(s, p))
  {
    var f := s.follower;
    PrefixNeverConflicts(Acknowledge(f.node, a), a, s.leader.log);
    MergeRound(s, p, a);
  }

  lemma GapProgress(s: Link, p: nat, a: AppendArgs)
    requires Linked(s, p) && PeerMessage(s.leader, p) == Some(a) && a.term == s.leader.term
    requires WellFormed(a) && a.entries != [] && a.prevIndex == s.leader.next[p] - 1 > |s.follower.node.log|
    ensures Backed(s, Round(s, p), p)
  {
    var r := StoreAppend(s.follower, a).1;
    AfterGap(s.follower, a);
    RejectedRound(s, p, a, r, s.follower.node.log);
    RejectedIsLinked(s, Round(s, p), p, r, s.follower.node.log);
  }

  lemma PrefixNeverConflicts(m: Node, a: AppendArgs, lead: seq<Entry>)
    requires m.offset == 0 && m.log <= lead && Carries(a, lead) && WellFormed(a)
    ensures !PrevMismatch(m, a) && !ScanFrom(m, a.entries, 0).conflict
  {
    ScanMeaning(m, a, 0);
  }

  /** A leader just elected - nextIndex is the index of its no-op - and a follower whose log has L entries:
      after at most L + 3 round trips the follower holds the leader's whole log, the no-op included. The
      extra rounds are the gap reply, the failed truncation when even index 1 conflicts, and the round that
      succeeds. At most two are needed when the follower's log is an initial part of the leader's. */
  lemma NewLeaderCatchesUp(n: Node, f: Server, p: nat) returns (k: nat)
    requires LogsOk(BecomeLeader(n), f) && f.node.term <= n.term && p in n.peers
    ensures 1 <= k <= |f.node.log| + 3 && CaughtUpAfter(Link(BecomeLeader(n), f), p, k)
    ensures LinkedBefore(Link(BecomeLeader(n), f), p, k)
    ensures f.node.log <= BecomeLeader(n).log ==> k <= 2
  {
    var s := Link(BecomeLeader(n), f);
    assert s.leader.log[|n.log|] == NoOp(n);
    assert s.leader.next[p] == n.LastIndex() + 1 == |s.leader.log|;
    if f.node.log <= s.leader.log {
      k := PrefixCatchesUp(s, p);
    } else {
      k := CatchesUpWithin(s, p);
    }
  }

  // ---- Commits follow ----

  /** The follower holds the leader's log, and the leader knows where to go on. */
  ghost predicate Synced(s: Link, p: nat) {
    && s.leader.offset == 0 && s.follower.node.offset == 0
    && Contiguous(s.leader.log, 0) && Contiguous(s.follower.node.log, 0)
    && CaughtUpWith(s) && s.follower.node.term <= s.leader.term && s.leader.commit <= |s.leader.log|
    && p in s.leader.next && 1 <= s.leader.next[p] <= |s.leader.log| + 1
  }

  /** The message of the next tick finds everything in place. */
  lemma SyncedMessage(s: Link, p: nat) returns (a: AppendArgs)
    requires Synced(s, p)
    ensures PeerMessage(s.leader, p) == Some(a) && WellFormed(a)
    ensures a.term == s.leader.term && a.leaderCommit == s.leader.commit
    ensures var n := s.follower.node;
      !Contradicts(n, a) && !Detached(n, a) && !Writes(n, a)
  {
    HeartbeatMeaning(s.leader, p);
    a := PeerMessage(s.leader, p).value;
    var n, lead, prev := s.follower.node, s.leader.log, a.prevIndex;
    assert forall k :: 0 <= k < |lead| ==> n.log[..|lead|][k] == n.log[k] && lead[..|lead|][k] == lead[k];
    forall i: nat ensures !Differs(n, a, i) {
      if i < |a.entries| { assert a.entries[i] == lead[prev + i]; }
    }
  }

  /** One more round brings the follower's commit index up to the leader's, and applies what that commits. */
  lemma CommitFollows(s: Link, p: nat)
    requires Synced(s, p)
    ensures var n, n' := s.follower.node, Round(s, p).follower.node;
      && n'.log == n.log && n'.commit == Later(n.commit, s.leader.commit) && n'.applied == Later(n.applied, n'.commit)
      && (n'.applied <= |s.leader.log| && n.kv == Replay(map[], n.log[..n.applied]) ==>
            n'.kv == Replay(map[], s.leader.log[..n'.applied]))
  {
    var a := SyncedMessage(s, p);
    var n := s.follower.node;
    SyncedAppend(s.follower, a);
    AppendedLog(n, a);
    AppendedCommit(n, a);
    var n' := HandleAppend(n, a, true, true).0;
    if n'.applied <= |s.leader.log| && n.kv == Replay(map[], n.log[..n.applied]) {
      ReplayedOn(n, n', s.leader.log);
    }
  }

  /** Nothing is to be truncated or written, so the disk has no say. */
  lemma SyncedAppend(f: Server, a: AppendArgs)
    requires WellFormed(a) && a.term >= f.node.term && !Detached(f.node, a) && !Writes(f.node, a)
    ensures StoreAppend(f, a).0.node == HandleAppend(f.node, a, true, true).0
  {
    ScanFinds(f.node, a);
    ScanFinds(Acknowledge(f.node, a), a);
    SameConflicts(f.node, Acknowledge(f.node, a), a);
  }

  lemma ReplayedOn(n: Node, n': Node, lead: seq<Entry>)
    requires n.offset == 0 && n'.log == n.log && Agree(n.log, lead, |lead|) && n'.applied <= |lead|
    requires n'.applied == Later(n.applied, n'.commit) && n.kv == Replay(map[], n.log[..n.applied])
    requires n.applied < n'.commit ==> n'.kv == ReplayIndices(n.kv, n.log, 0, n.applied, n'.commit)
    requires n'.commit <= n.applied ==> n'.kv == n.kv
    ensures n'.kv == Replay(map[], lead[..n'.applied])
  {
    var h, i, j := n.log, n.applied, n'.applied;
    assert h[..j] == h[..|lead|][..j] == lead[..|lead|][..j] == lead[..j];
    if i < j {
      assert h[..i] + h[i..j] == h[..j];
      ReplayConcat(map[], h[..i], h[i..j]);
    }
  }

  /** The round in which the follower caught up has left the two in step. */
  lemma CaughtUpIsSynced(s: Link, p: nat)
    requires Linked(s, p) && CaughtUpWith(Round(s, p)) && s.leader.commit <= |s.leader.log|
    ensures Synced(Round(s, p), p)
  {
    MessageOf(s, p);
    RoundKeepsLog(s, p);
    OneRoundIsEnough(s, p);
    var a := PeerMessage(s.leader, p).value;
    var (f, r) := StoreAppend(s.follower, a);
    RefusedMessage(s, p, a);
    StoredReply(s.follower, a);
    ConfirmedEntries(s.leader, p, a, r);
  }

  lemma StoredReply(f: Server, a: AppendArgs)
    requires WellFormed(a) && a.term >= f.node.term && f.node.offset == 0 && Contiguous(f.node.log, 0)
    requires a.prevIndex <= |f.node.log| && !PrevMismatch(Acknowledge(f.node, a), a)
    requires Truncated(Acknowledge(f.node, a), f.disk.wal, a.entries).Some?
    ensures var (f', r) := StoreAppend(f, a);
      && r == AppendReply(a.term, true, 0)
      && f'.node.offset == 0 && f'.node.term == a.term && Contiguous(f'.node.log, 0)
  {
    var m := Acknowledge(f.node, a);
    GapMeaning(m, a);
    StoredLog(f, a);
    MergeRefinesSimpleMerge(m, a);
    AppendFields(f.node, a, true, true);
  }

  lemma ConfirmedEntries(l: Node, p: nat, a: AppendArgs, r: AppendReply)
    requires l.offset == 0 && l.commit <= |l.log| && a.term == l.term && r == AppendReply(l.term, true, 0)
    requires WellFormed(a) && a.entries != [] && a.prevIndex + |a.entries| == |l.log|
    ensures var l' := HandleAppendReply(l, p, a, r);
      && l'.offset == 0 && l'.log == l.log && l'.term == l.term && l'.commit <= |l.log|
      && p in l'.next && l'.next[p] == |l.log| + 1
  {
    ReplyTerm(l, p, a, r);
    ReplyKeepsBound(l, p, a, r);
  }

  lemma ReplyKeepsBound(l: Node, p: nat, a: AppendArgs, r: AppendReply)
    requires l.offset == 0 && l.commit <= |l.log|
    ensures HandleAppendReply(l, p, a, r).commit <= |l.log|
  {
    var m := RecordReply(l, p, a, r);
    if CanAdvance(m) { CatchUpFrame(m.(commit := MajorityPick(m.matched, m.LastIndex()))); }
  }

  lemma RoundKeepsCommit(s: Link, p: nat)
    requires s.leader.offset == 0 && s.leader.commit <= |s.leader.log|
    ensures Round(s, p).leader.offset == 0 && Round(s, p).leader.commit <= |Round(s, p).leader.log|
  {
    RoundKeepsLog(s, p);
    match PeerMessage(s.leader, p)
    case None =>
    case Some(a) =>
      var r := StoreAppend(s.follower, a).1;
      ReplyTerm(s.leader, p, a, r);
      ReplyKeepsBound(s.leader, p, a, r);
  }

  lemma {:induction false} RoundsKeepCommit(s: Link, p: nat, k: nat)
    requires s.leader.offset == 0 && s.leader.commit <= |s.leader.log|
    ensures var t := Iterate(RoundsWith(p), s, k); t.leader.offset == 0 && t.leader.commit <= |t.leader.log|
    decreases k
  {
    if k > 0 {
      RoundKeepsCommit(s, p);
      RoundsKeepCommit(Round(s, p), p, k - 1);
    }
  }

  lemma {:induction false} OneMore<S>(step: S -> S, s: S, k: nat, l: nat)
    requires l == k + 1
    ensures Iterate(step, s, l) == step(Iterate(step, s, k))
    decreases k
  {
    if k > 0 { OneMore(step, step(s), k - 1, k); }
  }

  /** The follower has committed what the leader had, and applied what it has committed. */
  ghost predicate CommitArrives(before: Link, after: Link) {
    var n, n' := before.follower.node, after.follower.node;
    n'.commit == Later(n.commit, before.leader.commit) && n'.applied == Later(n.applied, n'.commit)
  }

  /** In the round after the first k. */
  ghost predicate CommitSpreads(s: Link, p: nat, k: nat) {
    CommitArrives(Iterate(RoundsWith(p), s, k), Iterate(RoundsWith(p), s, k + 1))
  }

  /** A new leader's commit index reaches the follower one round after the log has: at most L + 4 rounds after
      the election the follower has committed and applied whatever the leader had committed a round before. */
  lemma NewLeaderSpreadsCommit(n: Node, f: Server, p: nat) returns (k: nat)
    requires LogsOk(BecomeLeader(n), f) && f.node.term <= n.term && p in n.peers && n.commit <= |n.log|
    ensures 1 <= k <= |f.node.log| + 3
    ensures CaughtUpAfter(Link(BecomeLeader(n), f), p, k) && CommitSpreads(Link(BecomeLeader(n), f), p, k)
  {
    k := NewLeaderCatchesUp(n, f, p);
    SpreadsNow(Link(BecomeLeader(n), f), p, k);
  }

  lemma SpreadsNow(s: Link, p: nat, k: nat)
    requires k > 0 && LinkedBefore(s, p, k) && CaughtUpAfter(s, p, k)
    requires s.leader.offset == 0 && s.leader.commit <= |s.leader.log|
    ensures CommitSpreads(s, p, k)
  {
    SpreadsAfter(s, p, k - 1, k, k + 1);
  }

  lemma SpreadsAfter(s: Link, p: nat, j: nat, k: nat, l: nat)
    requires k == j + 1 && l == k + 1 && Linked(Iterate(RoundsWith(p), s, j), p) && CaughtUpAfter(s, p, k)
    requires s.leader.offset == 0 && s.leader.commit <= |s.leader.log|
    ensures CommitArrives(Iterate(RoundsWith(p), s, k), Iterate(RoundsWith(p), s, l))
  {
    OneMore(RoundsWith(p), s, j, k);
    OneMore(RoundsWith(p), s, k, l);
    RoundsKeepCommit(s, p, j);
    SpreadsNext(Iterate(RoundsWith(p), s, j), p);
  }

  lemma SpreadsNext(t: Link, p: nat)
    requires Linked(t, p) && CaughtUpWith(Round(t, p)) && t.leader.commit <= |t.leader.log|
    ensures CommitArrives(Round(t, p), Round(Round(t, p), p))
  {
    CaughtUpIsSynced(t, p);
    CommitFollows(Round(t, p), p);
  }

  /** A WAL in agreement with the log in memory is enough for the disk's part. */
  lemma AgreementIsOnDisk(f: Server, history: seq<Entry>)
    requires Agrees(f, history) && f.node.offset == 0
    ensures OnDisk(f)
  {
    var wal, log := f.disk.wal, f.node.log;
    LogContiguous(f.node, history);
    forall i | 1 <= i <= |log| ensures Listed(wal, i) {
      TruncateListMeaning(wal, i);
      assert wal[|wal| - |log|..][i - 1].index == i;
    }
  }
}
