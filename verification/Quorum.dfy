/** The commit rule's arithmetic: the element picked from the sorted match indices, and majorities. */
module Quorums {

  /** How many elements of `s` are at least v. */
  function Count(s: seq<nat>, v: nat): (c: nat)
    ensures c <= |s|
  {
    if s == [] then 0 else (if s[0] >= v then 1 else 0) + Count(s[1..], v)
  }

  predicate Descending(s: seq<nat>) {
    forall i, j :: 0 <= i < j < |s| ==> s[i] >= s[j]
  }

  function Insert(x: nat, s: seq<nat>): (r: seq<nat>)
    requires Descending(s)
    ensures Descending(r) && multiset(r) == multiset(s) + multiset{x}
    ensures |r| == |s| + 1
    ensures forall k :: 0 <= k < |r| ==> r[k] == x || (s != [] && r[k] <= s[0])
  {
    if s == [] || x >= s[0] then
      [x] + s
    else
      assert s == [s[0]] + s[1..];
      [s[0]] + Insert(x, s[1..])
  }

  /** What sort.Slice with a "greater than" comparison returns: the values in descending order. */
  function SortDescending(s: seq<nat>): (r: seq<nat>)
    ensures Descending(r) && multiset(r) == multiset(s) && |r| == |s|
  {
    if s == [] then [] else
      assert s == [s[0]] + s[1..];
      Insert(s[0], SortDescending(s[1..]))
  }

  lemma {:induction false} CountInsert(x: nat, s: seq<nat>, v: nat)
    requires Descending(s)
    ensures Count(Insert(x, s), v) == (if x >= v then 1 else 0) + Count(s, v)
  {
    if s == [] || x >= s[0] {
      assert ([x] + s)[1..] == s;
    } else {
      CountInsert(x, s[1..], v);
      assert ([s[0]] + Insert(x, s[1..]))[1..] == Insert(x, s[1..]);
    }
  }

  lemma {:induction false} CountSorted(s: seq<nat>, v: nat)
    ensures Count(SortDescending(s), v) == Count(s, v)
  {
    if s != [] {
      CountSorted(s[1..], v);
      CountInsert(s[0], SortDescending(s[1..]), v);
    }
  }

  lemma {:induction false} CountAppend(s: seq<nat>, x: nat, v: nat)
    ensures Count(s + [x], v) == Count(s, v) + if x >= v then 1 else 0
  {
    if s == [] {
      assert s + [x] == [x];
    } else {
      CountAppend(s[1..], x, v);
      assert (s + [x])[1..] == s[1..] + [x];
    }
  }

  /** In a descending sequence the element at position k has more than k elements at or above it, and
      at most k strictly above it. */
  lemma {:induction false} CountAtRank(s: seq<nat>, k: nat)
    requires Descending(s) && k < |s|
    ensures Count(s, s[k]) >= k + 1 && Count(s, s[k] + 1) <= k
  {
    if k == 0 {
      NoneAbove(s, s[0] + 1);
    } else {
      CountAtRank(s[1..], k - 1);
    }
  }

  lemma {:induction false} NoneAbove(s: seq<nat>, v: nat)
    requires forall k :: 0 <= k < |s| ==> s[k] < v
    ensures Count(s, v) == 0
  {
    if s != [] {
      NoneAbove(s[1..], v);
    }
  }

  // ---- The pick of tryAdvanceCommitIndex ----

  /** The map entries that are at least v. */
  ghost function AtLeast(m: map<nat, nat>, v: nat): set<nat> {
    set k | k in m && m[k] >= v
  }

  /** How many of the collected values - the map's, and the leader's own last index - are at least v. */
  ghost function Votes(m: map<nat, nat>, last: nat, v: nat): nat {
    |AtLeast(m, v)| + if last >= v then 1 else 0
  }

  /** v is what sits in the middle of the |m| + 1 collected values: more than half are at least v, and at
      most half exceed it. */
  ghost predicate IsMajorityPick(m: map<nat, nat>, last: nat, v: nat) {
    Votes(m, last, v) >= (|m| + 1) / 2 + 1 && Votes(m, last, v + 1) <= (|m| + 1) / 2
  }

  lemma VotesAntitone(m: map<nat, nat>, last: nat, v: nat, w: nat)
    requires v <= w
    ensures Votes(m, last, w) <= Votes(m, last, v)
  {
    SubsetSize(AtLeast(m, w), AtLeast(m, v));
  }

  lemma {:induction false} SubsetSize<T>(a: set<T>, b: set<T>)
    requires a <= b
    ensures |a| <= |b|
  {
    assert b == a + (b - a);
  }

  lemma PickIsUnique(m: map<nat, nat>, last: nat, v: nat, w: nat)
    requires IsMajorityPick(m, last, v) && IsMajorityPick(m, last, w)
    ensures v == w
  {
    if v < w {
      VotesAntitone(m, last, v + 1, w);
    } else if w < v {
      VotesAntitone(m, last, w + 1, v);
    }
  }

  /** The values of `m` at `keys`, in some order - the order in which Go ranges over a map is arbitrary. */
  ghost function ValuesAt(m: map<nat, nat>, keys: set<nat>): (s: seq<nat>)
    requires keys <= m.Keys
    ensures |s| == |keys|
  {
    if keys == {} then [] else
      var k :| k in keys;
      [m[k]] + ValuesAt(m, keys - {k})
  }

  /** The keys among `keys` whose value is at least v. */
  ghost function Above(m: map<nat, nat>, keys: set<nat>, v: nat): set<nat>
    requires keys <= m.Keys
  {
    set k | k in keys && m[k] >= v
  }

  lemma AboveOneMore(m: map<nat, nat>, keys: set<nat>, k: nat, v: nat)
    requires keys <= m.Keys && k in m && k !in keys
    ensures |Above(m, keys + {k}, v)| == |Above(m, keys, v)| + if m[k] >= v then 1 else 0
  {
    if m[k] >= v {
      assert Above(m, keys + {k}, v) == Above(m, keys, v) + {k};
    } else {
      assert Above(m, keys + {k}, v) == Above(m, keys, v);
    }
  }

  lemma {:induction false} CountValues(m: map<nat, nat>, keys: set<nat>, v: nat)
    requires keys <= m.Keys
    ensures Count(ValuesAt(m, keys), v) == |Above(m, keys, v)|
    decreases keys
  {
    if keys == {} {
      assert Above(m, keys, v) == {};
    } else {
      var k :| k in keys && ValuesAt(m, keys) == [m[k]] + ValuesAt(m, keys - {k});
      CountValues(m, keys - {k}, v);
      AboveOneMore(m, keys - {k}, k, v);
      assert keys - {k} + {k} == keys;
      assert ([m[k]] + ValuesAt(m, keys - {k}))[1..] == ValuesAt(m, keys - {k});
    }
  }

  ghost predicate Counted(m: map<nat, nat>, values: seq<nat>, v: nat) {
    Count(values, v) == |AtLeast(m, v)|
  }

  /** Collecting any ordering of the values, adding `last`, sorting in descending order and taking the
      middle element yields the pick. */
  lemma SortedMiddleIsPick(m: map<nat, nat>, last: nat, values: seq<nat>)
    requires |values| == |m|
    requires forall v: nat :: Counted(m, values, v)
    ensures IsMajorityPick(m, last, SortDescending(values + [last])[(|m| + 1) / 2])
  {
    var sorted := SortDescending(values + [last]);
    forall v: nat ensures CountedVotes(m, last, sorted, v) {
      assert Counted(m, values, v);
      CountCollected(m, last, values, v);
    }
    MiddleIsPick(m, last, sorted);
  }

  ghost predicate CountedVotes(m: map<nat, nat>, last: nat, values: seq<nat>, v: nat) {
    Count(values, v) == Votes(m, last, v)
  }

  lemma MiddleIsPick(m: map<nat, nat>, last: nat, sorted: seq<nat>)
    requires Descending(sorted) && |sorted| == |m| + 1 && forall v: nat :: CountedVotes(m, last, sorted, v)
    ensures IsMajorityPick(m, last, sorted[(|m| + 1) / 2])
  {
    var k := (|m| + 1) / 2;
    var v := sorted[k];
    CountAtRank(sorted, k);
    assert CountedVotes(m, last, sorted, v) && CountedVotes(m, last, sorted, v + 1);
  }

  lemma CountCollected(m: map<nat, nat>, last: nat, values: seq<nat>, v: nat)
    requires Counted(m, values, v)
    ensures Count(SortDescending(values + [last]), v) == Votes(m, last, v)
  {
    CountSorted(values + [last], v);
    CountAppend(values, last, v);
  }

  lemma PickExists(m: map<nat, nat>, last: nat)
    ensures exists v: nat :: IsMajorityPick(m, last, v)
  {
    var values := ValuesAt(m, m.Keys);
    forall v: nat ensures Counted(m, values, v) {
      CountValues(m, m.Keys, v);
      assert AtLeast(m, v) == Above(m, m.Keys, v);
    }
    SortedMiddleIsPick(m, last, values);
  }

  /** The index tryAdvanceCommitIndex considers for commit. */
  ghost function MajorityPick(m: map<nat, nat>, last: nat): (v: nat)
    ensures IsMajorityPick(m, last, v)
  {
    PickExists(m, last);
    var v: nat :| IsMajorityPick(m, last, v);
    v
  }

  /** `s` lists the values of `m` at `keys`, as far as counting can tell. */
  ghost predicate Collected(m: map<nat, nat>, keys: set<nat>, s: seq<nat>) {
    keys <= m.Keys && |s| == |keys| && forall v: nat :: Count(s, v) == |Above(m, keys, v)|
  }

  lemma CollectOneMore(m: map<nat, nat>, keys: set<nat>, s: seq<nat>, k: nat)
    requires Collected(m, keys, s) && k in m && k !in keys
    ensures Collected(m, keys + {k}, s + [m[k]])
  {
    forall v: nat ensures Count(s + [m[k]], v) == |Above(m, keys + {k}, v)| {
      CountAppend(s, m[k], v);
      AboveOneMore(m, keys, k, v);
    }
  }

  lemma CollectedAll(m: map<nat, nat>, last: nat, s: seq<nat>)
    requires Collected(m, m.Keys, s)
    ensures SortDescending(s + [last])[|SortDescending(s + [last])| / 2] == MajorityPick(m, last)
  {
    assert |m| == |m.Keys|;
    forall v: nat ensures Counted(m, s, v) {
      assert AtLeast(m, v) == Above(m, m.Keys, v);
    }
    SortedMiddleIsPick(m, last, s);
    PickIsUnique(m, last, SortDescending(s + [last])[(|m| + 1) / 2], MajorityPick(m, last));
  }

  /** The loop, the append, the sort and the middle element of tryAdvanceCommitIndex. */
  method PickMajorityIndex(matched: map<nat, nat>, last: nat) returns (v: nat)
    ensures v == MajorityPick(matched, last)
  {
    var every: seq<nat> := [];
    var todo := matched.Keys;
    ghost var done: set<nat> := {};
    while todo != {}
      invariant done !! todo && done + todo == matched.Keys
      invariant Collected(matched, done, every)
      decreases todo
    {
      var k :| k in todo;
      CollectOneMore(matched, done, every, k);
      every, todo, done := every + [matched[k]], todo - {k}, done + {k};
    }
    assert done == matched.Keys;
    CollectedAll(matched, last, every);
    every := SortDescending(every + [last]);
    v := every[|every| / 2];
  }

  /** The pick never drops when match indices and the leader's log only grow. */
  lemma PickMonotone(m: map<nat, nat>, last: nat, m': map<nat, nat>, last': nat)
    requires m.Keys == m'.Keys && last <= last'
    requires forall k :: k in m ==> m[k] <= m'[k]
    ensures MajorityPick(m, last) <= MajorityPick(m', last')
  {
    var v, w := MajorityPick(m, last), MajorityPick(m', last');
    assert |m| == |m.Keys| && |m'| == |m'.Keys|;
    if w < v {
      SubsetSize(AtLeast(m, v), AtLeast(m', v));
      VotesAntitone(m', last', w + 1, v);
      assert false;
    }
  }

  // ---- Majorities ----

  /** The vote threshold of requestVotes: len(peers)/2 + 1. */
  function Majority(peers: set<nat>): nat {
    |peers| / 2 + 1
  }

  ghost predicate IsQuorum(peers: set<nat>, q: set<nat>) {
    q <= peers && |q| >= Majority(peers)
  }

  lemma {:induction false} QuorumsMeet(peers: set<nat>, a: set<nat>, b: set<nat>) returns (x: nat)
    requires IsQuorum(peers, a) && IsQuorum(peers, b)
    ensures x in a && x in b
  {
    if a * b == {} {
      assert |a + b| == |a| + |b|;
      SubsetSize(a + b, peers);
      assert false;
    }
    x :| x in a * b;
  }

  /** The nodes a pick of v speaks for: every peer whose slot is at least v, and the leader when its own
      log reaches v. */
  ghost function Holders(m: map<nat, nat>, self: nat, last: nat, v: nat): set<nat> {
    AtLeast(m, v) + if last >= v then {self} else {}
  }

  /** The pick is held by a majority of distinct nodes although the leader is counted twice - once through
      its own slot in the map and once through its last index - provided that the slot is below the pick
      (it is 0 in practice) or the number of nodes is odd. */
  lemma PickIsHeldByQuorum(m: map<nat, nat>, self: nat, last: nat)
    requires self in m && m[self] <= last
    requires m[self] < MajorityPick(m, last) || |m| % 2 == 1
    ensures IsQuorum(m.Keys, Holders(m, self, last, MajorityPick(m, last)))
  {
    var v := MajorityPick(m, last);
    var others := AtLeast(m, v) - {self};
    assert |m| == |m.Keys|;
    if m[self] >= v {
      assert AtLeast(m, v) == others + {self};
      assert Holders(m, self, last, v) == others + {self};
    } else {
      assert AtLeast(m, v) == others;
      assert last >= v ==> Holders(m, self, last, v) == others + {self};
      assert last < v ==> Holders(m, self, last, v) == others;
    }
  }

  /** With an even number of nodes and the leader's slot at its last index, the pick can be held by half of
      the nodes only: four nodes, one follower caught up. */
  lemma EvenClusterCounterexample()
    ensures var m: map<nat, nat> := map[1 := 5, 2 := 5, 3 := 0, 4 := 0];
            MajorityPick(m, 5) == 5 && Holders(m, 1, 5, 5) == {1, 2} && !IsQuorum(m.Keys, {1, 2})
  {
    var m: map<nat, nat> := map[1 := 5, 2 := 5, 3 := 0, 4 := 0];
    assert AtLeast(m, 5) == {1, 2} && AtLeast(m, 6) == {};
    assert m.Keys == {1, 2, 3, 4};
    assert |m| == |m.Keys| == 4;
    assert Votes(m, 5, 5) == 3 && Votes(m, 5, 6) == 0;
    assert IsMajorityPick(m, 5, 5);
    PickIsUnique(m, 5, 5, MajorityPick(m, 5));
  }
}
