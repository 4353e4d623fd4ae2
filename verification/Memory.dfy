/** A node's memory seen against the full history of its log. */
module Memory {
  import opened Common
  import opened StateMachines
  import opened RaftNode

  /** `history` is the full log from index 1 on. In memory: its tail, and the replay of its applied part. */
  ghost predicate MemoryOk(n: Node, history: seq<Entry>) {
    && Contiguous(history, 0)
    && n.offset <= n.applied <= |history| && n.commit <= n.applied
    && n.log == history[n.offset..]
    && n.kv == Replay(map[], history[..n.applied])
  }

  lemma LogContiguous(n: Node, history: seq<Entry>)
    requires MemoryOk(n, history)
    ensures Contiguous(n.log, n.offset) && n.LastIndex() == |history| == n.offset + |n.log|
  {
  }

  lemma EntryOf(n: Node, history: seq<Entry>, index: nat)
    requires MemoryOk(n, history)
    ensures n.EntryAt(index) == if n.offset < index <= |history| then Some(history[index - 1]) else None
  {
  }

  lemma SplitAt<T>(h: seq<T>, k: nat)
    requires k <= |h|
    ensures h[..k] + h[k..] == h && h[..|h|] == h
  {
  }

  // ---- Replaying ----

  function ReplayFrom(n: Node, es: seq<Entry>): Node
    decreases |es|
  {
    if es == [] then n
    else ReplayFrom(n.(applied := es[0].index, kv := ApplyCommand(n.kv, es[0].data)), es[1..])
  }

  lemma {:induction false} ReplayFromMeaning(n: Node, es: seq<Entry>, index: nat)
    requires Contiguous(es, index)
    ensures ReplayFrom(n, es) == n.(applied := if es == [] then n.applied else index + |es|, kv := Replay(n.kv, es))
    decreases |es|
  {
    if es != [] {
      var m := n.(applied := es[0].index, kv := ApplyCommand(n.kv, es[0].data));
      ReplayFromMeaning(m, es[1..], index + 1);
      ReplayConcat(n.kv, [es[0]], es[1..]);
      assert [es[0]] + es[1..] == es;
      ReplayOne(n.kv, es[0]);
    }
  }

  lemma {:induction false} ReplayFromLog(n: Node, es: seq<Entry>)
    ensures ReplayFrom(n, es).log == n.log && ReplayFrom(n, es).offset == n.offset
    decreases |es|
  {
    if es != [] {
      ReplayFromLog(n.(applied := es[0].index, kv := ApplyCommand(n.kv, es[0].data)), es[1..]);
    }
  }

  lemma ReplayOne(kv: Kv, e: Entry)
    ensures Replay(kv, [e]) == ApplyCommand(kv, e.data)
  {
    assert [e][..0] == [];
    assert Replay(kv, []) == kv;
  }

  lemma Middle<T>(h: seq<T>, offset: nat, i: nat, j: nat)
    requires offset <= i <= j <= |h|
    ensures h[offset..][i - offset..j - offset] == h[i..j] && h[..i] + h[i..j] == h[..j]
  {
  }

  lemma ReplayOn(h: seq<Entry>, offset: nat, i: nat, j: nat)
    requires offset <= i <= j <= |h|
    ensures ReplayRange(Replay(map[], h[..i]), h[offset..], i - offset, j - offset) == Replay(map[], h[..j])
  {
    Middle(h, offset, i, j);
    ReplayConcat(map[], h[..i], h[i..j]);
  }

  /** Applying what is committed: the map stays the replay of the history, each entry once and in order. */
  lemma CatchUpKeepsMemory(n: Node, history: seq<Entry>)
    requires MemoryOk(n.(commit := 0), history) && n.commit <= n.offset + |n.log|
    ensures MemoryOk(CatchUp(n), history)
  {
    if n.applied < n.commit {
      CaughtUpMemory(n, CatchUp(n), history);
    }
  }

  lemma CaughtUpMemory(n: Node, n': Node, history: seq<Entry>)
    requires MemoryOk(n.(commit := 0), history) && n.applied < n.commit <= n.offset + |n.log| && n' == CatchUp(n)
    ensures MemoryOk(n', history)
  {
    AppliedRange(n, n', n.applied - n.offset, n.commit - n.offset);
    Replayed(n', n, history);
  }

  lemma AppliedRange(n: Node, n': Node, i: nat, j: nat)
    requires n.applied == n.offset + i && n.commit == n.offset + j && i <= j <= |n.log| && n' == CatchUp(n)
    ensures n'.log == n.log && n'.offset == n.offset && n'.applied == n'.commit == n.commit
    ensures n'.kv == ReplayRange(n.kv, n.log, i, j)
  {
    CatchUpReplays(n, i, j);
  }

  lemma Replayed(n': Node, n: Node, history: seq<Entry>)
    requires MemoryOk(n.(commit := 0), history) && n.applied < n.commit <= |history|
    requires n'.log == n.log && n'.offset == n.offset && n'.applied == n'.commit == n.commit
    requires n'.kv == ReplayRange(n.kv, n.log, n.applied - n.offset, n.commit - n.offset)
    ensures MemoryOk(n', history)
  {
    ReplayOn(history, n.offset, n.applied, n.commit);
  }

  // ---- Appending ----

  lemma AppendedMemory(n: Node, n': Node, history: seq<Entry>, e: Entry)
    requires MemoryOk(n, history) && e.index == n.LastIndex() + 1 && n'.log == n.log + [e]
    requires n'.offset == n.offset && n'.applied == n.applied && n'.commit == n.commit && n'.kv == n.kv
    ensures MemoryOk(n', history + [e])
    ensures (history + [e])[..n.offset] == history[..n.offset]
  {
    LogContiguous(n, history);
    AppendParts(history, n.offset, e);
    AppendParts(history, n.applied, e);
  }

  lemma AppendParts<T>(h: seq<T>, k: nat, e: T)
    requires k <= |h|
    ensures (h + [e])[k..] == h[k..] + [e] && (h + [e])[..k] == h[..k]
  {
  }

  // ---- Merging ----

  /** The node once an accepted message is merged and its commit index taken over. */
  function Merged(m: Node, a: AppendArgs): Node {
    FollowCommit(Cut(m, a.entries).(log := Cut(m, a.entries).log + Rest(m, a.entries)), a.leaderCommit)
  }

  /** What an accepted message leaves in memory, before the snapshot. */
  function Accepted(m: Node, a: AppendArgs): Node {
    CatchUp(Merged(m, a))
  }

  lemma AcceptedFrame(m: Node, a: AppendArgs)
    ensures Accepted(m, a).log == Cut(m, a.entries).log + Rest(m, a.entries)
    ensures Accepted(m, a).id == m.id && Accepted(m, a).peers == m.peers
  {
    CatchUpFrame(Merged(m, a));
  }

  lemma CommitBound(n: Node, leaderCommit: nat)
    requires Contiguous(n.log, n.offset) && n.commit <= n.offset + |n.log|
    ensures FollowCommit(n, leaderCommit) == n.(commit := FollowCommit(n, leaderCommit).commit)
    ensures FollowCommit(n, leaderCommit).commit <= n.offset + |n.log|
  {
  }

  lemma KeepsFirst<T>(log: seq<T>, cut: seq<T>, rest: seq<T>, k: nat)
    requires cut <= log && k <= |cut|
    ensures (cut + rest)[..k] == log[..k]
  {
  }

  lemma RebasedMemory(m: Node, log: seq<Entry>, history: seq<Entry>)
    requires MemoryOk(m, history) && Contiguous(log, m.offset)
    requires m.applied - m.offset <= |log| && log[..m.applied - m.offset] == m.log[..m.applied - m.offset]
    ensures MemoryOk(m.(log := log), history[..m.offset] + log)
    ensures (history[..m.offset] + log)[..m.offset] == history[..m.offset]
  {
    var h' := history[..m.offset] + log;
    assert h'[m.offset..] == log;
    forall k | 0 <= k < m.applied ensures h'[k] == history[k] {
      if k >= m.offset {
        assert h'[k] == log[..m.applied - m.offset][k - m.offset];
        assert m.log[..m.applied - m.offset][k - m.offset] == history[k];
      }
    }
    assert h'[..m.applied] == history[..m.applied];
  }

  lemma MergedParts(m: Node, cut: seq<Entry>, rest: seq<Entry>, history: seq<Entry>, leaderCommit: nat)
    requires MemoryOk(m, history) && m.applied - m.offset <= |cut| && cut <= m.log
    requires Contiguous(cut + rest, m.offset)
    ensures var f := FollowCommit(m.(log := cut + rest), leaderCommit);
      && f == m.(log := cut + rest, commit := f.commit) && f.commit <= f.offset + |cut + rest|
      && MemoryOk(f.(commit := 0), history[..m.offset] + (cut + rest))
      && (history[..m.offset] + (cut + rest))[..m.offset] == history[..m.offset]
  {
    KeepsFirst(m.log, cut, rest, m.applied - m.offset);
    RebasedMemory(m, cut + rest, history);
    CommitBound(m.(log := cut + rest), leaderCommit);
  }

  lemma MergedMemory(m: Node, a: AppendArgs, history: seq<Entry>)
    requires MemoryOk(m, history) && WellFormed(a) && Attaches(m, a)
    requires m.applied - m.offset <= |Cut(m, a.entries).log| && Cut(m, a.entries).log <= m.log
    ensures var log := Cut(m, a.entries).log + Rest(m, a.entries);
      var f := Merged(m, a);
      && f == m.(log := log, commit := f.commit) && f.commit <= f.offset + |log|
      && MemoryOk(f.(commit := 0), history[..m.offset] + log)
      && (history[..m.offset] + log)[..m.offset] == history[..m.offset]
  {
    var cut, rest := Cut(m, a.entries).log, Rest(m, a.entries);
    assert Merged(m, a) == FollowCommit(m.(log := cut + rest), a.leaderCommit);
    LogContiguous(m, history);
    assert Contiguous(cut + rest, m.offset) by { MergeRefinesSimpleMerge(m, a); }
    MergedParts(m, cut, rest, history, a.leaderCommit);
  }

  lemma AcceptKeepsMemory(m: Node, a: AppendArgs, history: seq<Entry>)
    requires MemoryOk(m, history) && WellFormed(a) && Attaches(m, a)
    requires m.applied - m.offset <= |Cut(m, a.entries).log| && Cut(m, a.entries).log <= m.log
    ensures var log := Cut(m, a.entries).log + Rest(m, a.entries);
      && MemoryOk(Accepted(m, a), history[..m.offset] + log)
      && Accepted(m, a).log == log && Accepted(m, a).offset == m.offset && Accepted(m, a).applied >= m.applied
      && Accepted(m, a).id == m.id && Accepted(m, a).peers == m.peers
      && (history[..m.offset] + log)[..m.offset] == history[..m.offset]
  {
    MergedMemory(m, a, history);
    var f := Merged(m, a);
    CatchUpKeepsMemory(f, history[..m.offset] + f.log);
    CatchUpFrame(f);
  }
}
