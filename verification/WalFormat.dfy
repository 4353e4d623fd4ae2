/** The bytes of the write-ahead log, and what reading, cutting and compacting them means. */
module WalFormat {
  import opened Common
  import opened BigEndian

  /** Any 32-bit checksum; no property below depends on which. */
  type Word32 = x: nat | x < 0x1_0000_0000
  type Checksum = Bytes -> Word32

  const HEADER: nat := 20
  const OVERHEAD: nat := 24

  /** encode: term, index and payload length, then the payload. The length field keeps 32 bits. */
  function EncodeEntry(e: Entry): (b: Bytes)
    ensures |b| == HEADER + |e.data|
  {
    Put(8, e.term) + Put(8, e.index) + Put(4, |e.data|) + e.data
  }

  /** One record of the file: the checksum of the encoded entry, then the encoded entry. */
  function Record(crc: Checksum, e: Entry): (b: Bytes)
    ensures |b| == OVERHEAD + |e.data|
  {
    Put(4, crc(EncodeEntry(e))) + EncodeEntry(e)
  }

  function EncodeAll(crc: Checksum, es: seq<Entry>): Bytes {
    if es == [] then [] else Record(crc, es[0]) + EncodeAll(crc, es[1..])
  }

  datatype Parsed = Parsed(entry: Entry, size: nat)

  /** readOne: the record at the start of `b`, unless the bytes run out or the checksum is wrong. */
  function ParseRecord(crc: Checksum, b: Bytes): (r: Option<Parsed>)
    ensures r.Some? ==> OVERHEAD <= r.value.size <= |b|
  {
    if |b| < OVERHEAD then None
    else
      var dataLen := Get(b[20..24]);
      if |b| < OVERHEAD + dataLen then None
      else
        var e := Entry(Get(b[4..12]), Get(b[12..20]), b[24..24 + dataLen]);
        if crc(EncodeEntry(e)) != Get(b[0..4]) then None else Some(Parsed(e, OVERHEAD + dataLen))
  }

  /** ReadAll: records until the first one that does not parse. */
  function ReadRecords(crc: Checksum, b: Bytes): seq<Entry>
    decreases |b|
  {
    match ParseRecord(crc, b)
    case None => []
    case Some(p) => [p.entry] + ReadRecords(crc, b[p.size..])
  }

  ghost predicate AllInRange(es: seq<Entry>) {
    forall k :: 0 <= k < |es| ==> es[k].InRange()
  }

  // ---- One record ----

  lemma RecordFields(crc: Checksum, e: Entry, rest: Bytes)
    requires e.InRange()
    ensures var b := Record(crc, e) + rest;
      && Get(b[0..4]) == crc(EncodeEntry(e)) && Get(b[4..12]) == e.term && Get(b[12..20]) == e.index
      && Get(b[20..24]) == |e.data| && b[24..24 + |e.data|] == e.data
  {
    Widths();
    var c := crc(EncodeEntry(e));
    var b := Record(crc, e) + rest;
    assert b == Put(4, c) + Put(8, e.term) + Put(8, e.index) + Put(4, |e.data|) + e.data + rest;
    assert b[0..4] == Put(4, c) && b[4..12] == Put(8, e.term) && b[12..20] == Put(8, e.index);
    assert b[20..24] == Put(4, |e.data|) && b[24..24 + |e.data|] == e.data;
    GetPutExact(4, c);
    GetPutExact(8, e.term);
    GetPutExact(8, e.index);
    GetPutExact(4, |e.data|);
  }

  /** A record parses back to its entry, whatever follows it. */
  lemma ParseOfRecord(crc: Checksum, e: Entry, rest: Bytes)
    requires e.InRange()
    ensures ParseRecord(crc, Record(crc, e) + rest) == Some(Parsed(e, |Record(crc, e)|))
  {
    RecordFields(crc, e, rest);
  }

  /** No strict prefix of a record parses, for any checksum. */
  lemma TornRecord(crc: Checksum, e: Entry, k: nat)
    requires e.InRange() && k < |Record(crc, e)|
    ensures ParseRecord(crc, Record(crc, e)[..k]) == None
  {
    if k >= OVERHEAD {
      RecordFields(crc, e, []);
      assert Record(crc, e) + [] == Record(crc, e);
      assert Record(crc, e)[..k][20..24] == Record(crc, e)[20..24];
    }
  }

  /** Whatever parses is the record of an entry that fits the format. */
  lemma ParseIsRecord(crc: Checksum, b: Bytes)
    requires ParseRecord(crc, b).Some?
    ensures var p := ParseRecord(crc, b).value; p.entry.InRange() && b[..p.size] == Record(crc, p.entry)
  {
    Widths();
    var p := ParseRecord(crc, b).value;
    GetBound(b[4..12]);
    GetBound(b[12..20]);
    GetBound(b[20..24]);
    PutGet(b[0..4]);
    PutGet(b[4..12]);
    PutGet(b[12..20]);
    PutGet(b[20..24]);
    assert b[..p.size] == b[0..4] + (b[4..12] + b[12..20] + b[20..24] + b[24..p.size]);
  }

  // ---- Whole files ----

  lemma {:induction false} EncodeConcat(crc: Checksum, a: seq<Entry>, b: seq<Entry>)
    ensures EncodeAll(crc, a + b) == EncodeAll(crc, a) + EncodeAll(crc, b)
  {
    if a == [] {
      assert a + b == b;
    } else {
      assert (a + b)[1..] == a[1..] + b;
      EncodeConcat(crc, a[1..], b);
    }
  }

  lemma EncodeOne(crc: Checksum, e: Entry)
    ensures EncodeAll(crc, [e]) == Record(crc, e)
  {
    assert [e][1..] == [];
  }

  lemma ConsConcat<T>(s: seq<T>, r: seq<T>)
    requires s != []
    ensures [s[0]] + (s[1..] + r) == s + r
  {
  }

  lemma ReadStep(crc: Checksum, e: Entry, rest: Bytes)
    requires e.InRange()
    ensures ReadRecords(crc, Record(crc, e) + rest) == [e] + ReadRecords(crc, rest)
  {
    ParseOfRecord(crc, e, rest);
    assert (Record(crc, e) + rest)[|Record(crc, e)|..] == rest;
  }

  lemma EncodeStep(crc: Checksum, es: seq<Entry>, rest: Bytes)
    requires es != []
    ensures EncodeAll(crc, es) + rest == Record(crc, es[0]) + (EncodeAll(crc, es[1..]) + rest)
  {
  }

  /** Records at the start of a file are read back, then reading goes on with the rest. */
  lemma {:induction false} ReadConcat(crc: Checksum, es: seq<Entry>, rest: Bytes)
    requires AllInRange(es)
    ensures ReadRecords(crc, EncodeAll(crc, es) + rest) == es + ReadRecords(crc, rest)
  {
    if es == [] {
      assert EncodeAll(crc, es) + rest == rest;
    } else {
      EncodeStep(crc, es, rest);
      ReadStep(crc, es[0], EncodeAll(crc, es[1..]) + rest);
      ReadConcat(crc, es[1..], rest);
      ConsConcat(es, ReadRecords(crc, rest));
    }
  }

  lemma ReadBack(crc: Checksum, es: seq<Entry>)
    requires AllInRange(es)
    ensures ReadRecords(crc, EncodeAll(crc, es)) == es
  {
    ReadConcat(crc, es, []);
    assert EncodeAll(crc, es) + [] == EncodeAll(crc, es);
    assert ParseRecord(crc, []) == None;
  }

  /** n records fit wholly in the first k bytes, and no more. */
  ghost predicate FitsWholly(crc: Checksum, es: seq<Entry>, k: nat, n: nat) {
    n <= |es| && |EncodeAll(crc, es[..n])| <= k && (n < |es| ==> |EncodeAll(crc, es[..n + 1])| > k)
  }

  lemma {:induction false} FitsExists(crc: Checksum, es: seq<Entry>, k: nat) returns (n: nat)
    ensures FitsWholly(crc, es, k, n)
  {
    n := 0;
    while n < |es| && |EncodeAll(crc, es[..n + 1])| <= k
      invariant n <= |es| && |EncodeAll(crc, es[..n])| <= k
    {
      n := n + 1;
    }
  }

  /** A log cut after any number of bytes reads back exactly the records that fit wholly before the cut. */
  lemma SurvivesByteCut(crc: Checksum, es: seq<Entry>, k: nat, n: nat)
    requires AllInRange(es) && k <= |EncodeAll(crc, es)| && FitsWholly(crc, es, k, n)
    ensures ReadRecords(crc, EncodeAll(crc, es)[..k]) == es[..n]
  {
    var fit, rest := es[..n], es[n..];
    var j := CutFile(crc, es, k, n);
    ReadConcat(crc, fit, EncodeAll(crc, rest)[..j]);
    assert fit + [] == fit;
    if n < |es| {
      NextDoesNotFit(crc, es, k, n);
      NothingFromTorn(crc, rest, j);
    } else {
      assert ParseRecord(crc, []) == None;
    }
  }

  lemma CutFile(crc: Checksum, es: seq<Entry>, k: nat, n: nat) returns (j: nat)
    requires k <= |EncodeAll(crc, es)| && FitsWholly(crc, es, k, n)
    ensures j == k - |EncodeAll(crc, es[..n])| <= |EncodeAll(crc, es[n..])|
    ensures EncodeAll(crc, es)[..k] == EncodeAll(crc, es[..n]) + EncodeAll(crc, es[n..])[..j]
  {
    var whole, tail := EncodeAll(crc, es[..n]), EncodeAll(crc, es[n..]);
    assert es == es[..n] + es[n..];
    EncodeConcat(crc, es[..n], es[n..]);
    j := k - |whole|;
    PrefixBehind(whole, tail, j);
  }

  lemma NextDoesNotFit(crc: Checksum, es: seq<Entry>, k: nat, n: nat)
    requires FitsWholly(crc, es, k, n) && n < |es|
    ensures k - |EncodeAll(crc, es[..n])| < |Record(crc, es[n])|
  {
    assert es[..n + 1] == es[..n] + [es[n]];
    EncodeConcat(crc, es[..n], [es[n]]);
    EncodeOne(crc, es[n]);
  }

  lemma NothingFromTorn(crc: Checksum, es: seq<Entry>, k: nat)
    requires es != [] && es[0].InRange() && k < |Record(crc, es[0])|
    ensures k <= |EncodeAll(crc, es)| && ReadRecords(crc, EncodeAll(crc, es)[..k]) == []
  {
    TornRecord(crc, es[0], k);
    assert EncodeAll(crc, es)[..k] == Record(crc, es[0])[..k];
  }

  /** Reading never invents: what it returns is in range and is encoded at the start of the file. */
  lemma {:induction false} ReadIsPrefix(crc: Checksum, b: Bytes)
    ensures AllInRange(ReadRecords(crc, b))
    ensures var es := ReadRecords(crc, b);
      |EncodeAll(crc, es)| <= |b| && b[..|EncodeAll(crc, es)|] == EncodeAll(crc, es)
    decreases |b|
  {
    match ParseRecord(crc, b)
    case None =>
    case Some(p) =>
      ParseIsRecord(crc, b);
      ReadIsPrefix(crc, b[p.size..]);
      var es := ReadRecords(crc, b);
      assert es[1..] == ReadRecords(crc, b[p.size..]);
      assert b[..|EncodeAll(crc, es)|] == b[..p.size] + b[p.size..][..|EncodeAll(crc, es[1..])|];
  }

  /** A record alone in a file reads back if and only if its payload length fits 32 bits. */
  lemma RecordRoundTrip(crc: Checksum, e: Entry)
    requires e.term < TWO_TO_THE_64 && e.index < TWO_TO_THE_64
    ensures ReadRecords(crc, Record(crc, e)) == [e] <==> |e.data| < TWO_TO_THE_32
  {
    EncodeOne(crc, e);
    ReadIsPrefix(crc, Record(crc, e));
    if ReadRecords(crc, Record(crc, e)) == [e] {
      assert ReadRecords(crc, Record(crc, e))[0].InRange();
    }
    if e.InRange() { ReadBack(crc, [e]); }
  }

  /** A file that starts with records, followed by bytes that do not parse, reads back as those records. */
  lemma ReadWithTail(crc: Checksum, es: seq<Entry>, torn: Bytes)
    requires AllInRange(es) && ParseRecord(crc, torn) == None
    ensures ReadRecords(crc, EncodeAll(crc, es) + torn) == es
  {
    ReadConcat(crc, es, torn);
    assert es + [] == es;
  }

  /** The file holds nothing but whole records. */
  ghost predicate Whole(crc: Checksum, file: Bytes) {
    file == EncodeAll(crc, ReadRecords(crc, file))
  }

  /** Records appended to a file of whole records are read back behind them. */
  lemma AppendToWhole(crc: Checksum, file: Bytes, es: seq<Entry>)
    requires Whole(crc, file) && AllInRange(es)
    ensures ReadRecords(crc, file + EncodeAll(crc, es)) == ReadRecords(crc, file) + es
    ensures Whole(crc, file + EncodeAll(crc, es))
  {
    ReadIsPrefix(crc, file);
    ReadBack(crc, es);
    ReadConcat(crc, ReadRecords(crc, file), EncodeAll(crc, es));
    EncodeConcat(crc, ReadRecords(crc, file), es);
  }

  // ---- TruncateAfter ----

  /** The entries through the first with the given index, or None. */
  function TruncateList(es: seq<Entry>, index: nat): (r: Option<seq<Entry>>)
    ensures r.Some? ==> r.value <= es
  {
    if es == [] then None
    else if es[0].index == index then Some([es[0]])
    else
      match TruncateList(es[1..], index)
      case None => None
      case Some(t) => Some([es[0]] + t)
  }

  ghost predicate Missing(es: seq<Entry>, index: nat) {
    forall k :: 0 <= k < |es| ==> es[k].index != index
  }

  lemma MissingCons(e: Entry, es: seq<Entry>, index: nat)
    ensures Missing([e] + es, index) <==> e.index != index && Missing(es, index)
  {
    assert ([e] + es)[0] == e;
    assert forall k :: 0 <= k < |es| ==> ([e] + es)[k + 1] == es[k];
  }

  /** It ends with the first record of that index; there is no result exactly when no record has it. */
  lemma {:induction false} TruncateListMeaning(es: seq<Entry>, index: nat)
    ensures TruncateList(es, index) == None <==> Missing(es, index)
    ensures match TruncateList(es, index)
            case None => true
            case Some(t) => t != [] && t[|t| - 1].index == index && Missing(t[..|t| - 1], index)
  {
    if es != [] {
      MissingCons(es[0], es[1..], index);
      assert [es[0]] + es[1..] == es;
      if es[0].index != index {
        TruncateListMeaning(es[1..], index);
        match TruncateList(es[1..], index)
        case None =>
        case Some(t) =>
          MissingCons(es[0], t[..|t| - 1], index);
          assert ([es[0]] + t)[..|t|] == [es[0]] + t[..|t| - 1];
      }
    }
  }

  lemma MissingConcat(a: seq<Entry>, b: seq<Entry>, index: nat)
    requires Missing(a, index) && Missing(b, index)
    ensures Missing(a + b, index)
  {
  }

  lemma {:induction false} TruncateListAt(before: seq<Entry>, e: Entry, after: seq<Entry>, index: nat)
    requires Missing(before, index)
    ensures e.index == index ==> TruncateList(before + [e] + after, index) == Some(before + [e])
    ensures TruncateList(before, index) == None
  {
    if before == [] {
      assert before + [e] + after == [e] + after;
    } else {
      TruncateListAt(before[1..], e, after, index);
      assert (before + [e] + after)[1..] == before[1..] + [e] + after;
      assert [before[0]] + (before[1..] + [e]) == before + [e];
    }
  }

  /** The first records of what a file reads back are its first bytes. */
  lemma PrefixIsBytes(crc: Checksum, b: Bytes, t: seq<Entry>)
    requires t <= ReadRecords(crc, b)
    ensures |EncodeAll(crc, t)| <= |b| && b[..|EncodeAll(crc, t)|] == EncodeAll(crc, t)
  {
    ReadIsPrefix(crc, b);
    var es := ReadRecords(crc, b);
    assert es == t + es[|t|..];
    EncodeConcat(crc, t, es[|t|..]);
    PrefixOfPrefix(b, EncodeAll(crc, t), EncodeAll(crc, es[|t|..]));
  }

  lemma PrefixOfPrefix(b: Bytes, x: Bytes, y: Bytes)
    requires |x + y| <= |b| && b[..|x + y|] == x + y
    ensures b[..|x|] == x
  {
    assert b[..|x|] == b[..|x + y|][..|x|];
  }

  /** The scan of TruncateAfter: `passed` lies before the running offset, `left` is still to be read. */
  ghost predicate Scanned(crc: Checksum, file: Bytes, index: nat, passed: seq<Entry>, left: Bytes, offset: nat) {
    && ReadRecords(crc, file) == passed + ReadRecords(crc, left)
    && Missing(passed, index) && offset == |EncodeAll(crc, passed)|
  }

  /** The offset behind the first record with the given index. */
  ghost function TruncationPoint(crc: Checksum, file: Bytes, index: nat): Option<nat> {
    match TruncateList(ReadRecords(crc, file), index)
    case None => None
    case Some(t) => Some(|EncodeAll(crc, t)|)
  }

  lemma PassRecord(crc: Checksum, all: seq<Entry>, passed: seq<Entry>, e: Entry, ahead: seq<Entry>, index: nat)
    requires all == passed + ([e] + ahead) && Missing(passed, index)
    ensures all == (passed + [e]) + ahead
    ensures e.index != index ==> Missing(passed + [e], index)
    ensures |EncodeAll(crc, passed + [e])| == |EncodeAll(crc, passed)| + |Record(crc, e)|
    ensures e.index == index ==> TruncateList(all, index) == Some(passed + [e])
  {
    assert all == passed + [e] + ahead;
    EncodeConcat(crc, passed, [e]);
    EncodeOne(crc, e);
    TruncateListAt(passed, e, ahead, index);
  }

  lemma ScanOne(crc: Checksum, file: Bytes, index: nat, passed: seq<Entry>, left: Bytes, offset: nat, p: Parsed)
    requires Scanned(crc, file, index, passed, left, offset) && ParseRecord(crc, left) == Some(p)
    ensures p.entry.index != index ==> Scanned(crc, file, index, passed + [p.entry], left[p.size..], offset + p.size)
    ensures p.entry.index == index ==> TruncationPoint(crc, file, index) == Some(offset + p.size)
  {
    PassRecord(crc, ReadRecords(crc, file), passed, p.entry, ReadRecords(crc, left[p.size..]), index);
  }

  lemma ScanEnd(crc: Checksum, file: Bytes, index: nat, passed: seq<Entry>, left: Bytes, offset: nat)
    requires Scanned(crc, file, index, passed, left, offset) && ParseRecord(crc, left) == None
    ensures TruncationPoint(crc, file, index) == None
  {
    assert passed + [] == passed;
    TruncateListMeaning(passed, index);
  }

  lemma PrefixBehind(a: Bytes, b: Bytes, n: nat)
    requires n <= |b|
    ensures (a + b)[..|a| + n] == a + b[..n]
  {
  }

  // ---- CompactWAL ----

  /** The entries above the compaction index. */
  function Survivors(es: seq<Entry>, index: nat): (r: seq<Entry>)
    ensures forall e :: e in r <==> e in es && e.index > index
  {
    if es == [] then []
    else (if es[0].index > index then [es[0]] else []) + Survivors(es[1..], index)
  }

  lemma {:induction false} SurvivorsInRange(es: seq<Entry>, index: nat)
    requires AllInRange(es)
    ensures AllInRange(Survivors(es, index))
  {
    forall k | 0 <= k < |Survivors(es, index)| ensures Survivors(es, index)[k].InRange() {
      assert Survivors(es, index)[k] in es;
    }
  }

  lemma SurvivorsNext(es: seq<Entry>, i: nat, index: nat)
    requires i < |es|
    ensures Survivors(es[..i + 1], index) == Survivors(es[..i], index) + if es[i].index > index then [es[i]] else []
  {
    assert es[..i + 1] == es[..i] + [es[i]];
    SurvivorsConcat(es[..i], [es[i]], index);
    assert [es[i]][1..] == [];
    assert Survivors([], index) == [];
  }

  lemma {:induction false} SurvivorsConcat(a: seq<Entry>, b: seq<Entry>, index: nat)
    ensures Survivors(a + b, index) == Survivors(a, index) + Survivors(b, index)
  {
    if a == [] {
      assert a + b == b;
    } else {
      assert (a + b)[1..] == a[1..] + b;
      SurvivorsConcat(a[1..], b, index);
    }
  }

  ghost predicate UpTo(es: seq<Entry>, index: nat) {
    forall k :: 0 <= k < |es| ==> es[k].index <= index
  }

  ghost predicate AllAbove(es: seq<Entry>, index: nat) {
    forall k :: 0 <= k < |es| ==> es[k].index > index
  }

  lemma {:induction false} NoSurvivors(es: seq<Entry>, index: nat)
    ensures Survivors(es, index) == [] <==> UpTo(es, index)
  {
    if es != [] {
      NoSurvivors(es[1..], index);
      assert UpTo(es, index) <==> es[0].index <= index && UpTo(es[1..], index) by {
        assert forall k :: 0 <= k < |es[1..]| ==> es[1..][k] == es[k + 1];
        assert [es[0]] + es[1..] == es;
      }
    }
  }

  lemma {:induction false} AllSurvive(es: seq<Entry>, index: nat)
    requires AllAbove(es, index)
    ensures Survivors(es, index) == es
  {
    if es != [] {
      AllSurvive(es[1..], index);
      assert [es[0]] + es[1..] == es;
    }
  }
}
