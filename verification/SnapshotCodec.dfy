/** Snapshots and their bytes. */
module SnapshotCodec {
  import opened Common
  import opened BigEndian
  import opened Readers
  import opened StateMachines

  datatype Snapshot = Snapshot(index: nat, term: nat, data: Kv)

  datatype Pair = Pair(key: Bytes, value: Bytes)

  // ---- Format ----

  function EncodePair(p: Pair): (b: Bytes)
    ensures |b| == 8 + |p.key| + |p.value|
  {
    Put(4, |p.key|) + p.key + Put(4, |p.value|) + p.value
  }

  function EncodePairs(ps: seq<Pair>): Bytes {
    if ps == [] then [] else EncodePair(ps[0]) + EncodePairs(ps[1..])
  }

  /** The bytes of a snapshot whose map is written in the order of `ps`. */
  function EncodeSnapshot(s: Snapshot, ps: seq<Pair>): Bytes {
    Put(8, s.index) + Put(8, s.term) + Put(4, |s.data|) + EncodePairs(ps)
  }

  /** `ps` lists the map, each key once: one of the orders a map iteration can take. */
  ghost predicate Lists(ps: seq<Pair>, kv: Kv) {
    && |ps| == |kv|
    && (forall i :: 0 <= i < |ps| ==> ps[i].key in kv && kv[ps[i].key] == ps[i].value)
    && (forall i, j :: 0 <= i < j < |ps| ==> ps[i].key != ps[j].key)
    && (forall k :: k in kv ==> exists i :: 0 <= i < |ps| && ps[i].key == k)
  }

  /** The pairs may be written in any order: Go ranges over a map as it likes. */
  ghost predicate IsEncoding(s: Snapshot, b: Bytes) {
    exists ps :: Lists(ps, s.data) && b == EncodeSnapshot(s, ps)
  }

  datatype PairAt = PairAt(pair: Pair, size: nat)

  function DecodePair(b: Bytes): (r: Option<PairAt>)
    ensures r.Some? ==> 8 <= r.value.size <= |b|
  {
    if |b| < 4 then None
    else
      var k := Get(b[..4]);
      if |b| < 8 + k then None
      else
        var v := Get(b[4 + k..8 + k]);
        if |b| < 8 + k + v then None
        else Some(PairAt(Pair(b[4..4 + k], b[8 + k..8 + k + v]), 8 + k + v))
  }

  /** The next n pairs stored into the map one after the other. */
  function DecodePairs(b: Bytes, n: nat, kv: Kv): Option<Kv> {
    if n == 0 then Some(kv)
    else
      match DecodePair(b)
      case None => None
      case Some(p) => DecodePairs(b[p.size..], n - 1, kv[p.pair.key := p.pair.value])
  }

  function DecodeBytes(b: Bytes): Option<Snapshot> {
    if |b| < 20 then None
    else
      match DecodePairs(b[20..], Get(b[16..20]), map[])
      case None => None
      case Some(kv) => Some(Snapshot(Get(b[..8]), Get(b[8..16]), kv))
  }

  predicate PairFits(p: Pair) {
    |p.key| < TWO_TO_THE_32 && |p.value| < TWO_TO_THE_32
  }

  /** The snapshot's numbers fit their fields. */
  ghost predicate Fits(s: Snapshot) {
    && s.index < TWO_TO_THE_64 && s.term < TWO_TO_THE_64 && |s.data| < TWO_TO_THE_32
    && forall k :: k in s.data ==> PairFits(Pair(k, s.data[k]))
  }

  // ---- One pair ----

  lemma PairFields(p: Pair, rest: Bytes)
    requires PairFits(p)
    ensures var b, k := EncodePair(p) + rest, |p.key|;
      && Get(b[..4]) == k && b[4..4 + k] == p.key && Get(b[4 + k..8 + k]) == |p.value|
      && b[8 + k..8 + k + |p.value|] == p.value
  {
    Widths();
    var b, k := EncodePair(p) + rest, |p.key|;
    GetPutExact(4, k);
    GetPutExact(4, |p.value|);
    assert b[..4] == Put(4, k) && b[4..4 + k] == p.key && b[4 + k..8 + k] == Put(4, |p.value|);
    assert b[8 + k..8 + k + |p.value|] == p.value;
  }

  lemma DecodeOfPair(p: Pair, rest: Bytes)
    requires PairFits(p)
    ensures DecodePair(EncodePair(p) + rest) == Some(PairAt(p, |EncodePair(p)|))
    ensures (EncodePair(p) + rest)[|EncodePair(p)|..] == rest
  {
    PairFields(p, rest);
  }

  lemma TornPair(p: Pair, k: nat)
    requires PairFits(p) && k < |EncodePair(p)|
    ensures DecodePair(EncodePair(p)[..k]) == None
  {
    PairFields(p, []);
    assert EncodePair(p) + [] == EncodePair(p);
    var b := EncodePair(p);
    if k >= 4 {
      assert b[..k][..4] == b[..4];
      if k >= 8 + |p.key| {
        assert b[..k][4 + |p.key|..8 + |p.key|] == b[4 + |p.key|..8 + |p.key|];
      }
    }
  }

  // ---- The list of pairs ----

  function StoreAll(kv: Kv, ps: seq<Pair>): Kv
    decreases |ps|
  {
    if ps == [] then kv else StoreAll(kv[ps[0].key := ps[0].value], ps[1..])
  }

  lemma EncodePairsStep(ps: seq<Pair>, rest: Bytes)
    requires ps != []
    ensures EncodePairs(ps) + rest == EncodePair(ps[0]) + (EncodePairs(ps[1..]) + rest)
  {
  }

  lemma {:induction false} DecodeOfPairs(ps: seq<Pair>, rest: Bytes, kv: Kv)
    requires forall i :: 0 <= i < |ps| ==> PairFits(ps[i])
    ensures DecodePairs(EncodePairs(ps) + rest, |ps|, kv) == Some(StoreAll(kv, ps))
  {
    if ps != [] {
      EncodePairsStep(ps, rest);
      DecodeOfPair(ps[0], EncodePairs(ps[1..]) + rest);
      DecodeOfPairs(ps[1..], rest, kv[ps[0].key := ps[0].value]);
    }
  }

  lemma {:induction false} TornPairs(ps: seq<Pair>, k: nat, kv: Kv)
    requires forall i :: 0 <= i < |ps| ==> PairFits(ps[i])
    requires k < |EncodePairs(ps)|
    ensures DecodePairs(EncodePairs(ps)[..k], |ps|, kv) == None
  {
    var first, tail := EncodePair(ps[0]), EncodePairs(ps[1..]);
    assert EncodePairs(ps) == first + tail;
    if k < |first| {
      TornPair(ps[0], k);
      assert EncodePairs(ps)[..k] == first[..k];
    } else {
      assert EncodePairs(ps)[..k] == first + tail[..k - |first|];
      DecodeOfPair(ps[0], tail[..k - |first|]);
      TornPairs(ps[1..], k - |first|, kv[ps[0].key := ps[0].value]);
    }
  }

  ghost predicate Absent(ps: seq<Pair>, k: Bytes) {
    forall i :: 0 <= i < |ps| ==> ps[i].key != k
  }

  ghost predicate SameAt(a: Kv, b: Kv, k: Bytes) {
    (k in a <==> k in b) && (k in a && k in b ==> a[k] == b[k])
  }

  lemma {:induction false} StoreKeepsOthers(kv: Kv, ps: seq<Pair>, k: Bytes)
    requires Absent(ps, k)
    ensures SameAt(StoreAll(kv, ps), kv, k)
    decreases |ps|
  {
    if ps != [] {
      assert ps[0].key != k;
      StoreKeepsOthers(kv[ps[0].key := ps[0].value], ps[1..], k);
    }
  }

  /** Storing distinct pairs one by one stores each of them. */
  lemma {:induction false} StorePuts(kv: Kv, ps: seq<Pair>, i: nat)
    requires i < |ps| && forall j, k :: 0 <= j < k < |ps| ==> ps[j].key != ps[k].key
    ensures ps[i].key in StoreAll(kv, ps) && StoreAll(kv, ps)[ps[i].key] == ps[i].value
    decreases |ps|
  {
    var kv' := kv[ps[0].key := ps[0].value];
    if i == 0 {
      StoreKeepsOthers(kv', ps[1..], ps[0].key);
    } else {
      StorePuts(kv', ps[1..], i - 1);
    }
  }

  lemma StoreAllListed(ps: seq<Pair>, kv: Kv)
    requires Lists(ps, kv)
    ensures StoreAll(map[], ps) == kv
  {
    var empty: Kv := map[];
    var all := StoreAll(empty, ps);
    forall k | k in all ensures k in kv {
      if k !in kv { StoreKeepsOthers(empty, ps, k); }
    }
    forall k | k in kv ensures k in all && all[k] == kv[k] {
      var i :| 0 <= i < |ps| && ps[i].key == k;
      StorePuts(empty, ps, i);
    }
  }

  // ---- The whole snapshot ----

  lemma HeaderFields(x: Bytes, y: Bytes, z: Bytes, rest: Bytes)
    requires |x| == 8 && |y| == 8 && |z| == 4
    ensures var b := x + y + z + rest; b[..8] == x && b[8..16] == y && b[16..20] == z && b[20..] == rest
  {
  }

  lemma SnapshotFields(s: Snapshot, ps: seq<Pair>, rest: Bytes)
    requires Fits(s)
    ensures var b := EncodeSnapshot(s, ps) + rest;
      && Get(b[..8]) == s.index && Get(b[8..16]) == s.term && Get(b[16..20]) == |s.data|
      && b[20..] == EncodePairs(ps) + rest
  {
    Widths();
    GetPutExact(8, s.index);
    GetPutExact(8, s.term);
    GetPutExact(4, |s.data|);
    Assoc(Put(8, s.index) + Put(8, s.term) + Put(4, |s.data|), EncodePairs(ps), rest);
    HeaderFields(Put(8, s.index), Put(8, s.term), Put(4, |s.data|), EncodePairs(ps) + rest);
  }

  /** Decoding an encoding gives back the snapshot, whatever the order of the map and whatever follows. */
  lemma RoundTrip(s: Snapshot, ps: seq<Pair>, rest: Bytes)
    requires Fits(s) && Lists(ps, s.data)
    ensures DecodeBytes(EncodeSnapshot(s, ps) + rest) == Some(s)
  {
    SnapshotFields(s, ps, rest);
    forall i | 0 <= i < |ps| ensures PairFits(ps[i]) { assert PairFits(Pair(ps[i].key, s.data[ps[i].key])); }
    DecodeOfPairs(ps, rest, map[]);
    StoreAllListed(ps, s.data);
  }

  /** No strict prefix of an encoding decodes: a torn snapshot is an error, never a wrong map. */
  lemma TornSnapshot(s: Snapshot, ps: seq<Pair>, k: nat)
    requires Fits(s) && Lists(ps, s.data) && k < |EncodeSnapshot(s, ps)|
    ensures DecodeBytes(EncodeSnapshot(s, ps)[..k]) == None
  {
    var b := EncodeSnapshot(s, ps);
    assert b + [] == b && EncodePairs(ps) + [] == EncodePairs(ps);
    SnapshotFields(s, ps, []);
    if k >= 20 {
      assert b[..k][16..20] == b[16..20];
      assert b[..k][20..] == EncodePairs(ps)[..k - 20];
      forall i | 0 <= i < |ps| ensures PairFits(ps[i]) { assert PairFits(Pair(ps[i].key, s.data[ps[i].key])); }
      TornPairs(ps, k - 20, map[]);
    }
  }

  // ---- The methods ----

  lemma {:induction false} EncodePairsConcat(a: seq<Pair>, b: seq<Pair>)
    ensures EncodePairs(a + b) == EncodePairs(a) + EncodePairs(b)
  {
    if a == [] {
      assert a + b == b;
    } else {
      assert (a + b)[1..] == a[1..] + b;
      EncodePairsConcat(a[1..], b);
    }
  }

  lemma EncodePairsSnoc(a: seq<Pair>, p: Pair)
    ensures EncodePairs(a + [p]) == EncodePairs(a) + EncodePair(p)
  {
    EncodePairsConcat(a, [p]);
    assert [p][1..] == [];
  }

  /** The part of `kv` whose keys are still to be written. */
  ghost predicate Written(ps: seq<Pair>, kv: Kv, todo: set<Bytes>) {
    && todo <= kv.Keys && |ps| + |todo| == |kv|
    && (forall i :: 0 <= i < |ps| ==> ps[i].key in kv && ps[i].key !in todo && kv[ps[i].key] == ps[i].value)
    && (forall i, j :: 0 <= i < j < |ps| ==> ps[i].key != ps[j].key)
    && (forall k :: k in kv && k !in todo ==> exists i :: 0 <= i < |ps| && ps[i].key == k)
  }

  lemma WriteOne(ps: seq<Pair>, kv: Kv, todo: set<Bytes>, k: Bytes)
    requires Written(ps, kv, todo) && k in todo
    ensures Written(ps + [Pair(k, kv[k])], kv, todo - {k})
  {
    var ps' := ps + [Pair(k, kv[k])];
    assert |todo - {k}| == |todo| - 1;
    forall key | key in kv && key !in todo - {k} ensures exists i :: 0 <= i < |ps'| && ps'[i].key == key {
      if key == k { assert ps'[|ps|].key == key; }
      else {
        var i :| 0 <= i < |ps| && ps[i].key == key;
        assert ps'[i].key == key;
      }
    }
  }

  /** The four writes for one pair. */
  lemma WriteBytes(head: Bytes, ps: seq<Pair>, p: Pair, buf: Bytes)
    requires buf == head + EncodePairs(ps)
    ensures buf + Put(4, |p.key|) + p.key + Put(4, |p.value|) + p.value == head + EncodePairs(ps + [p])
  {
    EncodePairsSnoc(ps, p);
    assert buf + Put(4, |p.key|) + p.key + Put(4, |p.value|) + p.value == buf + EncodePair(p);
    Assoc(head, EncodePairs(ps), EncodePair(p));
  }

  /** Snapshot.Encode. */
  method Encode(s: Snapshot) returns (buf: Bytes)
    ensures IsEncoding(s, buf)
  {
    buf := Put(8, s.index);
    buf := buf + Put(8, s.term);
    buf := buf + Put(4, |s.data|);
    ghost var head := buf;
    ghost var ps: seq<Pair> := [];
    var todo := s.data.Keys;
    while todo != {}
      invariant Written(ps, s.data, todo)
      invariant buf == head + EncodePairs(ps)
      decreases todo
    {
      var k :| k in todo;
      WriteOne(ps, s.data, todo, k);
      WriteBytes(head, ps, Pair(k, s.data[k]), buf);
      buf := buf + Put(4, |k|);
      buf := buf + k;
      buf := buf + Put(4, |s.data[k]|);
      buf := buf + s.data[k];
      ps := ps + [Pair(k, s.data[k])];
      todo := todo - {k};
    }
    assert Lists(ps, s.data) && buf == EncodeSnapshot(s, ps);
  }

  method ReadPair(reader: Reader) returns (r: Option<PairAt>)
    requires reader.Valid()
    modifies reader
    ensures reader.Valid()
    ensures r == DecodePair(old(reader.Left()))
    ensures r.Some? ==> reader.Left() == old(reader.Left())[r.value.size..]
  {
    ghost var b := reader.Left();
    var keyLen := reader.ReadNumber(4);
    if keyLen == None { return None; }
    ghost var k := keyLen.value;
    var key := reader.ReadFull(keyLen.value);
    if key == None { return None; }
    Advance(b, 4, k);
    var valLen := reader.ReadNumber(4);
    if valLen == None { return None; }
    Advance(b, 4 + k, 4);
    ghost var v := valLen.value;
    var value := reader.ReadFull(valLen.value);
    if value == None { return None; }
    Advance(b, 8 + k, v);
    r := Some(PairAt(Pair(key.value, value.value), 8 + keyLen.value + valLen.value));
  }

  /** The loop of DecodeSnapshot. */
  method ReadPairs(reader: Reader, n: nat) returns (r: Option<Kv>)
    requires reader.Valid()
    modifies reader
    ensures reader.Valid() && r == DecodePairs(old(reader.Left()), n, map[])
  {
    var kv: Kv := map[];
    for i := 0 to n
      invariant reader.Valid()
      invariant DecodePairs(old(reader.Left()), n, map[]) == DecodePairs(reader.Left(), n - i, kv)
    {
      var p := ReadPair(reader);
      if p == None { return None; }
      kv := kv[p.value.pair.key := p.value.pair.value];
    }
    r := Some(kv);
  }

  /** DecodeSnapshot. */
  method Decode(data: Bytes) returns (r: Option<Snapshot>)
    ensures r == DecodeBytes(data)
  {
    var reader := new Reader(data);
    var index := reader.ReadNumber(8);
    if index == None { return None; }
    var term := reader.ReadNumber(8);
    if term == None { return None; }
    Advance(data, 8, 8);
    var count := reader.ReadNumber(4);
    if count == None { return None; }
    Advance(data, 16, 4);
    var kv := ReadPairs(reader, count.value);
    if kv == None { return None; }
    r := Some(Snapshot(index.value, term.value, kv.value));
  }
}
