/** The bytes of AppendEntries and InstallSnapshot requests. */
module RpcCodec {
  import opened Common
  import opened BigEndian
  import opened Readers
  import opened WalFormat
  import opened SnapshotCodec
  import opened RaftNode

  /** Malformed input is an error; a slice out of bounds is a crash of the process. */
  datatype Fault = Malformed | Panic

  // ---- One entry ----

  /** wal.decode. The end of the payload is computed in 32 bits, so a length close to 2^32 wraps round and
      the slice expression panics. */
  function DecodeEntry(buf: Bytes): Result<Entry, Fault> {
    if |buf| < HEADER then Err(Malformed)
    else
      var dataLen := Get(buf[16..20]);
      if |buf| < HEADER + dataLen then Err(Malformed)
      else if HEADER + dataLen >= TWO_TO_THE_32 then Err(Panic)
      else Ok(Entry(Get(buf[..8]), Get(buf[8..16]), buf[20..20 + dataLen]))
  }

  function Frame(e: Entry): (b: Bytes)
    ensures |b| == 4 + HEADER + |e.data|
  {
    Put(4, HEADER + |e.data|) + EncodeEntry(e)
  }

  function Frames(es: seq<Entry>): Bytes {
    if es == [] then [] else Frame(es[0]) + Frames(es[1..])
  }

  /** What a short Read leaves in a buffer of n bytes. */
  function Buffer(b: Bytes, n: nat): Bytes {
    if n <= |b| then b[..n] else b + seq(n - |b|, i => 0)
  }

  function Behind(b: Bytes, n: nat): Bytes {
    if n <= |b| then b[n..] else []
  }

  function DecodeFrames(b: Bytes, n: nat): (r: Result<seq<Entry>, Fault>)
    ensures r.Ok? ==> |r.value| == n
    decreases n
  {
    if n == 0 then Ok([])
    else if |b| <= 4 then Err(Malformed)
    else
      var len := Get(b[..4]);
      match DecodeEntry(Buffer(b[4..], len))
      case Err(f) => Err(f)
      case Ok(e) =>
        match DecodeFrames(Behind(b[4..], len), n - 1)
        case Err(f) => Err(f)
        case Ok(es) => Ok([e] + es)
  }

  /** An entry as Go holds it. */
  predicate WordEntry(e: Entry) {
    e.term < TWO_TO_THE_64 && e.index < TWO_TO_THE_64
  }

  /** The entry's frame length fits 32 bits. */
  predicate Frameable(e: Entry) {
    HEADER + |e.data| < TWO_TO_THE_32
  }

  lemma EntryFields(e: Entry)
    requires WordEntry(e) && Frameable(e)
    ensures DecodeEntry(EncodeEntry(e)) == Ok(e)
  {
    Widths();
    GetPutExact(8, e.term);
    GetPutExact(8, e.index);
    GetPutExact(4, |e.data|);
    var b := EncodeEntry(e);
    HeaderFields(Put(8, e.term), Put(8, e.index), Put(4, |e.data|), e.data);
    assert b[20..20 + |e.data|] == b[20..];
  }

  lemma DecodeOfFrame(e: Entry, rest: Bytes)
    requires WordEntry(e) && Frameable(e)
    ensures |Frame(e) + rest| > 4
    ensures var b := Frame(e) + rest;
      Buffer(b[4..], Get(b[..4])) == EncodeEntry(e) && Behind(b[4..], Get(b[..4])) == rest
  {
    Widths();
    GetPutExact(4, HEADER + |e.data|);
    var b := Frame(e) + rest;
    assert b[..4] == Put(4, HEADER + |e.data|);
    assert b[4..] == EncodeEntry(e) + rest;
  }

  lemma FramesStep(es: seq<Entry>, rest: Bytes)
    requires es != []
    ensures Frames(es) + rest == Frame(es[0]) + (Frames(es[1..]) + rest)
  {
  }

  lemma {:induction false} DecodeOfFrames(es: seq<Entry>, rest: Bytes)
    requires forall k :: 0 <= k < |es| ==> WordEntry(es[k]) && Frameable(es[k])
    ensures DecodeFrames(Frames(es) + rest, |es|) == Ok(es)
  {
    if es != [] {
      FramesStep(es, rest);
      DecodeOfFrame(es[0], Frames(es[1..]) + rest);
      EntryFields(es[0]);
      DecodeOfFrames(es[1..], rest);
      assert [es[0]] + es[1..] == es;
    }
  }

  lemma DecodedEntryFits(buf: Bytes)
    requires DecodeEntry(buf).Ok?
    ensures WordEntry(DecodeEntry(buf).value) && Frameable(DecodeEntry(buf).value)
  {
    Widths();
    GetBound(buf[..8]);
    GetBound(buf[8..16]);
  }

  /** Whatever is decoded is framed in fewer than 2^32 bytes. */
  lemma {:induction false} DecodedIsFrameable(b: Bytes, n: nat, k: nat)
    requires DecodeFrames(b, n).Ok? && k < |DecodeFrames(b, n).value|
    ensures WordEntry(DecodeFrames(b, n).value[k]) && Frameable(DecodeFrames(b, n).value[k])
    decreases n
  {
    if n > 0 {
      var len := Get(b[..4]);
      DecodedEntryFits(Buffer(b[4..], len));
      if k > 0 { DecodedIsFrameable(Behind(b[4..], len), n - 1, k - 1); }
    }
  }

  // ---- AppendEntries ----

  const APPEND_HEADER: nat := 44

  function AppendHeader(a: AppendArgs): (b: Bytes)
    ensures |b| == APPEND_HEADER
  {
    Put(8, a.term) + Put(8, a.leader) + Put(8, a.prevIndex) + Put(8, a.prevTerm) + Put(8, a.leaderCommit)
    + Put(4, |a.entries|)
  }

  function EncodeAppend(a: AppendArgs): Bytes {
    AppendHeader(a) + Frames(a.entries)
  }

  function DecodeAppend(b: Bytes): Result<AppendArgs, Fault> {
    if |b| < APPEND_HEADER then Err(Malformed)
    else
      match DecodeFrames(b[44..], Get(b[40..44]))
      case Err(f) => Err(f)
      case Ok(es) => Ok(AppendArgs(Get(b[..8]), Get(b[8..16]), Get(b[16..24]), Get(b[24..32]), es, Get(b[32..40])))
  }

  /** The message as Go holds it: 64-bit numbers throughout. */
  ghost predicate WordArgs(a: AppendArgs) {
    && a.term < TWO_TO_THE_64 && a.leader < TWO_TO_THE_64 && a.prevIndex < TWO_TO_THE_64
    && a.prevTerm < TWO_TO_THE_64 && a.leaderCommit < TWO_TO_THE_64
    && forall k :: 0 <= k < |a.entries| ==> WordEntry(a.entries[k])
  }

  lemma SixFields(u: Bytes, v: Bytes, w: Bytes, x: Bytes, y: Bytes, z: Bytes, rest: Bytes)
    requires |u| == |v| == |w| == |x| == |y| == 8 && |z| == 4
    ensures var b := (u + v + w + x + y + z) + rest;
      && b[..8] == u && b[8..16] == v && b[16..24] == w && b[24..32] == x && b[32..40] == y && b[40..44] == z
      && b[44..] == rest
  {
  }

  lemma AppendFields(a: AppendArgs, rest: Bytes)
    requires WordArgs(a) && |a.entries| < TWO_TO_THE_32
    ensures var b := AppendHeader(a) + rest;
      && Get(b[..8]) == a.term && Get(b[8..16]) == a.leader && Get(b[16..24]) == a.prevIndex
      && Get(b[24..32]) == a.prevTerm
      && Get(b[32..40]) == a.leaderCommit && Get(b[40..44]) == |a.entries| && b[44..] == rest
  {
    Widths();
    SixFields(Put(8, a.term), Put(8, a.leader), Put(8, a.prevIndex), Put(8, a.prevTerm), Put(8, a.leaderCommit),
              Put(4, |a.entries|), rest);
    GetPutExact(8, a.term);
    GetPutExact(8, a.leader);
    GetPutExact(8, a.prevIndex);
    GetPutExact(8, a.prevTerm);
    GetPutExact(8, a.leaderCommit);
    GetPutExact(4, |a.entries|);
  }

  lemma AppendRoundTripWithRest(a: AppendArgs, rest: Bytes)
    requires WordArgs(a) && |a.entries| < TWO_TO_THE_32
    requires forall k :: 0 <= k < |a.entries| ==> Frameable(a.entries[k])
    ensures DecodeAppend(EncodeAppend(a) + rest) == Ok(a)
  {
    Assoc(AppendHeader(a), Frames(a.entries), rest);
    AppendFields(a, Frames(a.entries) + rest);
    DecodeOfFrames(a.entries, rest);
  }

  lemma DecodedAppend(b: Bytes, k: nat)
    requires DecodeAppend(b).Ok?
    ensures |DecodeAppend(b).value.entries| < TWO_TO_THE_32
    ensures var es := DecodeAppend(b).value.entries;
      k < |es| ==> WordEntry(es[k]) && Frameable(es[k]) && es[k].InRange()
  {
    Widths();
    GetBound(b[40..44]);
    if k < |DecodeAppend(b).value.entries| {
      DecodedIsFrameable(b[44..], Get(b[40..44]), k);
    }
  }

  lemma FrameNeverPanics(b: Bytes)
    requires |b| > 4
    ensures DecodeEntry(Buffer(b[4..], Get(b[..4]))) != Err(Panic)
  {
    Widths();
    GetBound(b[..4]);
    assert |Buffer(b[4..], Get(b[..4]))| == Get(b[..4]) < TWO_TO_THE_32;
  }

  lemma PanicsSomewhere(b: Bytes, n: nat)
    requires DecodeFrames(b, n) == Err(Panic)
    ensures n > 0 && |b| > 4
    ensures DecodeEntry(Buffer(b[4..], Get(b[..4]))) == Err(Panic)
            || DecodeFrames(Behind(b[4..], Get(b[..4])), n - 1) == Err(Panic)
  {
  }

  lemma PanicMovesOn(b: Bytes, n: nat) returns (rest: Bytes)
    requires DecodeFrames(b, n) == Err(Panic)
    ensures n > 0 && DecodeFrames(rest, n - 1) == Err(Panic)
  {
    PanicsSomewhere(b, n);
    FrameNeverPanics(b);
    rest := Behind(b[4..], Get(b[..4]));
  }

  lemma {:induction false} FramesNeverPanic(b: Bytes, n: nat)
    ensures DecodeFrames(b, n) != Err(Panic)
    decreases n
  {
    if DecodeFrames(b, n) == Err(Panic) {
      var rest := PanicMovesOn(b, n);
      FramesNeverPanic(rest, n - 1);
    }
  }

  /** No bytes crash the decoder: the slice that would wrap round needs a buffer longer than the 32-bit frame
      length can ask for. */
  lemma NeverPanics(b: Bytes)
    ensures DecodeAppend(b) != Err(Panic)
  {
    if |b| >= APPEND_HEADER { FramesNeverPanic(b[44..], Get(b[40..44])); }
  }

  /** Decoding the encoding gives back the message if and only if it has fewer than 2^32 entries, each with
      at most 2^32 - 21 payload bytes. */
  lemma AppendRoundTrip(a: AppendArgs)
    requires WordArgs(a)
    ensures DecodeAppend(EncodeAppend(a)) == Ok(a) <==>
            && |a.entries| < TWO_TO_THE_32
            && forall k :: 0 <= k < |a.entries| ==> |a.entries[k].data| <= TWO_TO_THE_32 - 21
  {
    if |a.entries| < TWO_TO_THE_32 && forall k :: 0 <= k < |a.entries| ==> |a.entries[k].data| <= TWO_TO_THE_32 - 21 {
      AppendRoundTripWithRest(a, []);
      assert EncodeAppend(a) + [] == EncodeAppend(a);
    }
    if DecodeAppend(EncodeAppend(a)) == Ok(a) {
      DecodedAppend(EncodeAppend(a), 0);
      forall k | 0 <= k < |a.entries| ensures |a.entries[k].data| <= TWO_TO_THE_32 - 21 {
        DecodedAppend(EncodeAppend(a), k);
      }
    }
  }

  lemma {:induction false} FramesConcat(x: seq<Entry>, y: seq<Entry>)
    ensures Frames(x + y) == Frames(x) + Frames(y)
  {
    if x == [] {
      assert x + y == y;
    } else {
      assert (x + y)[1..] == x[1..] + y;
      FramesConcat(x[1..], y);
    }
  }

  method EncodeAppendEntriesArgs(a: AppendArgs) returns (buf: Bytes)
    ensures buf == EncodeAppend(a)
  {
    buf := Put(8, a.term);
    buf := buf + Put(8, a.leader);
    buf := buf + Put(8, a.prevIndex);
    buf := buf + Put(8, a.prevTerm);
    buf := buf + Put(8, a.leaderCommit);
    buf := buf + Put(4, |a.entries|);
    for i := 0 to |a.entries|
      invariant buf == AppendHeader(a) + Frames(a.entries[..i])
    {
      WriteFrame(AppendHeader(a), a.entries[..i], a.entries[i]);
      assert a.entries[..i + 1] == a.entries[..i] + [a.entries[i]];
      var encoded := EncodeEntry(a.entries[i]);
      buf := buf + Put(4, |encoded|);
      buf := buf + encoded;
    }
    assert a.entries[..|a.entries|] == a.entries;
  }

  lemma WriteFrame(head: Bytes, es: seq<Entry>, e: Entry)
    ensures head + Frames(es) + Put(4, |EncodeEntry(e)|) + EncodeEntry(e) == head + Frames(es + [e])
  {
    FramesConcat(es, [e]);
    assert [e][1..] == [];
    assert Frames([e]) == Frame(e);
    Assoc(head, Frames(es), Frame(e));
    Assoc(head + Frames(es), Put(4, |EncodeEntry(e)|), EncodeEntry(e));
  }

  method ReadFrame(reader: Reader) returns (r: Result<Entry, Fault>)
    requires reader.Valid()
    modifies reader
    ensures reader.Valid()
    ensures var b := old(reader.Left());
      r == if |b| <= 4 then Err(Malformed) else DecodeEntry(Buffer(b[4..], Get(b[..4])))
    ensures r.Ok? ==> reader.Left() == Behind(old(reader.Left())[4..], Get(old(reader.Left())[..4]))
  {
    var len := reader.ReadNumber(4);
    if len == None { return Err(Malformed); }
    var buf := reader.ReadSome(len.value);
    if buf == None { return Err(Malformed); }
    r := DecodeEntry(buf.value);
  }

  function Prepend(before: seq<Entry>, r: Result<seq<Entry>, Fault>): Result<seq<Entry>, Fault> {
    match r
    case Err(f) => Err(f)
    case Ok(es) => Ok(before + es)
  }

  lemma PrependNothing(r: Result<seq<Entry>, Fault>)
    ensures Prepend([], r) == r
  {
    if r.Ok? { assert [] + r.value == r.value; }
  }

  /** Reading one more frame moves it from what is ahead to what is read. */
  lemma Regrouped<T>(a: seq<T>, b: seq<T>, c: seq<T>)
    ensures a + (b + c) == (a + b) + c
  {
  }

  lemma PrependStep(before: seq<Entry>, b: Bytes, n: nat)
    requires n > 0
    ensures Prepend(before, DecodeFrames(b, n)) ==
      if |b| <= 4 then Err(Malformed)
      else match DecodeEntry(Buffer(b[4..], Get(b[..4])))
           case Err(f) => Err(f)
           case Ok(e) => Prepend(before + [e], DecodeFrames(Behind(b[4..], Get(b[..4])), n - 1))
  {
    if |b| > 4 {
      var e := DecodeEntry(Buffer(b[4..], Get(b[..4])));
      var ahead := DecodeFrames(Behind(b[4..], Get(b[..4])), n - 1);
      if e.Ok? && ahead.Ok? { Regrouped(before, [e.value], ahead.value); }
    }
  }

  method DecodeAppendEntriesArgs(data: Bytes) returns (r: Result<AppendArgs, Fault>)
    ensures r == DecodeAppend(data)
  {
    if |data| < APPEND_HEADER { return Err(Malformed); }
    var reader := new Reader(data);
    var head := reader.ReadFull(44);
    var h := head.value;
    var count := Get(h[40..44]);
    assert h[40..44] == data[40..44] && h[..8] == data[..8] && h[8..16] == data[8..16] && h[16..24] == data[16..24]
      && h[24..32] == data[24..32] && h[32..40] == data[32..40];
    var entries: seq<Entry> := [];
    ghost var sought := DecodeFrames(data[44..], count);
    PrependNothing(sought);
    for i := 0 to count
      invariant reader.Valid() && fresh(reader)
      invariant sought == Prepend(entries, DecodeFrames(reader.Left(), count - i))
    {
      PrependStep(entries, reader.Left(), count - i);
      var e := ReadFrame(reader);
      match e
      case Err(f) => return Err(f);
      case Ok(entry) => entries := entries + [entry];
    }
    assert entries + [] == entries;
    r := Ok(AppendArgs(Get(h[..8]), Get(h[8..16]), Get(h[16..24]), Get(h[24..32]), entries, Get(h[32..40])));
  }

  // ---- InstallSnapshot ----

  datatype InstallArgs = InstallArgs(term: nat, leader: nat, lastIndex: nat, lastTerm: nat, data: Bytes)

  function EncodeInstall(a: InstallArgs): Bytes {
    Put(8, a.term) + Put(8, a.leader) + Put(8, a.lastIndex) + Put(8, a.lastTerm) + Put(4, |a.data|) + a.data
  }

  function DecodeInstall(b: Bytes): Option<InstallArgs> {
    if |b| < 36 then None
    else
      var n := Get(b[32..36]);
      if |b| < 36 + n then None
      else Some(InstallArgs(Get(b[..8]), Get(b[8..16]), Get(b[16..24]), Get(b[24..32]), b[36..36 + n]))
  }

  predicate WordInstall(a: InstallArgs) {
    a.term < TWO_TO_THE_64 && a.leader < TWO_TO_THE_64 && a.lastIndex < TWO_TO_THE_64 && a.lastTerm < TWO_TO_THE_64
  }

  lemma FiveFields(u: Bytes, v: Bytes, w: Bytes, x: Bytes, z: Bytes, rest: Bytes)
    requires |u| == |v| == |w| == |x| == 8 && |z| == 4
    ensures var b := u + v + w + x + z + rest;
      && b[..8] == u && b[8..16] == v && b[16..24] == w && b[24..32] == x && b[32..36] == z && b[36..] == rest
  {
  }

  /** Decoding the encoding gives back the request if and only if its payload length fits 32 bits. */
  lemma InstallRoundTrip(a: InstallArgs)
    requires WordInstall(a)
    ensures DecodeInstall(EncodeInstall(a)) == Some(a) <==> |a.data| < TWO_TO_THE_32
  {
    Widths();
    var b := EncodeInstall(a);
    FiveFields(Put(8, a.term), Put(8, a.leader), Put(8, a.lastIndex), Put(8, a.lastTerm), Put(4, |a.data|), a.data);
    GetPutExact(8, a.term);
    GetPutExact(8, a.leader);
    GetPutExact(8, a.lastIndex);
    GetPutExact(8, a.lastTerm);
    GetBound(b[32..36]);
    if |a.data| < TWO_TO_THE_32 {
      GetPutExact(4, |a.data|);
      assert b[36..36 + |a.data|] == b[36..];
    }
  }

  /** A request cut short is an error. */
  lemma TornInstall(a: InstallArgs, k: nat)
    requires WordInstall(a) && |a.data| < TWO_TO_THE_32 && k < |EncodeInstall(a)|
    ensures DecodeInstall(EncodeInstall(a)[..k]) == None
  {
    Widths();
    var b := EncodeInstall(a);
    FiveFields(Put(8, a.term), Put(8, a.leader), Put(8, a.lastIndex), Put(8, a.lastTerm), Put(4, |a.data|), a.data);
    GetPutExact(4, |a.data|);
    if k >= 36 { assert b[..k][32..36] == b[32..36]; }
  }

  method DecodeInstallSnapshotArgs(data: Bytes) returns (r: Option<InstallArgs>)
    ensures r == DecodeInstall(data)
  {
    var reader := new Reader(data);
    var term := reader.ReadNumber(8);
    if term == None { return None; }
    var leader := reader.ReadNumber(8);
    if leader == None { return None; }
    Advance(data, 8, 8);
    var lastIndex := reader.ReadNumber(8);
    if lastIndex == None { return None; }
    Advance(data, 16, 8);
    var lastTerm := reader.ReadNumber(8);
    if lastTerm == None { return None; }
    Advance(data, 24, 8);
    var dataLen := reader.ReadNumber(4);
    if dataLen == None { return None; }
    Advance(data, 32, 4);
    var payload := reader.ReadFull(dataLen.value);
    if payload == None { return None; }
    Advance(data, 36, dataLen.value);
    r := Some(InstallArgs(term.value, leader.value, lastIndex.value, lastTerm.value, payload.value));
  }

  /** A snapshot sent to a follower arrives as it was taken, whatever order the map was written in. */
  lemma SnapshotArrives(s: Snapshot, ps: seq<Pair>, term: nat, leader: nat)
    requires Fits(s) && Lists(ps, s.data) && term < TWO_TO_THE_64 && leader < TWO_TO_THE_64
    requires |EncodeSnapshot(s, ps)| < TWO_TO_THE_32
    ensures var sent := InstallArgs(term, leader, s.index, s.term, EncodeSnapshot(s, ps));
      var received := DecodeInstall(EncodeInstall(sent));
      received.Some? && DecodeBytes(received.value.data) == Some(s)
  {
    InstallRoundTrip(InstallArgs(term, leader, s.index, s.term, EncodeSnapshot(s, ps)));
    RoundTrip(s, ps, []);
    assert EncodeSnapshot(s, ps) + [] == EncodeSnapshot(s, ps);
  }
}
