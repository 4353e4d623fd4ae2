/** What a crashed compaction leaves in its temporary file, and what the next compaction makes of it: the file
    is opened for appending, so the surviving records go behind whatever is already there. */
module Leftovers {
  import opened Common
  import opened BigEndian
  import opened Readers
  import opened WalFormat

  ghost predicate TornRecordOf(crc: Checksum, torn: Bytes, d: Entry) {
    d.InRange() && |torn| < |Record(crc, d)| && torn == Record(crc, d)[..|torn|]
  }

  /** Bytes too short for a record, or a record cut short whose index is at most `bound`. */
  ghost predicate TornOk(crc: Checksum, torn: Bytes, bound: nat) {
    |torn| < OVERHEAD || exists d :: TornRecordOf(crc, torn, d) && d.index <= bound
  }

  /** The temporary file holds whole records up to `bound`, and then at most one torn one. */
  ghost predicate Shape(crc: Checksum, temp: Bytes, stale: seq<Entry>, torn: Bytes, bound: nat) {
    temp == EncodeAll(crc, stale) + torn && AllInRange(stale) && UpTo(stale, bound) && TornOk(crc, torn, bound)
  }

  ghost predicate LeftoverOk(crc: Checksum, temp: Bytes, bound: nat) {
    exists stale, torn :: Shape(crc, temp, stale, torn, bound)
  }

  /** The bytes behind the last whole record. */
  ghost function TornPart(crc: Checksum, file: Bytes): Bytes {
    ReadIsPrefix(crc, file);
    file[|EncodeAll(crc, ReadRecords(crc, file))|..]
  }

  /** The surviving records, written behind the torn bytes, begin with themselves. True when nothing is torn
      and when nothing survives. */
  ghost predicate Clear(crc: Checksum, temp: Bytes, survivors: seq<Entry>) {
    EncodeAll(crc, survivors) <= TornPart(crc, temp) + EncodeAll(crc, survivors)
  }

  lemma TornDoesNotParse(crc: Checksum, torn: Bytes, bound: nat)
    requires TornOk(crc, torn, bound)
    ensures ParseRecord(crc, torn) == None
  {
    if |torn| >= OVERHEAD {
      var d :| TornRecordOf(crc, torn, d) && d.index <= bound;
      TornRecord(crc, d, |torn|);
    }
  }

  lemma ShapeIsRead(crc: Checksum, temp: Bytes, stale: seq<Entry>, torn: Bytes, bound: nat)
    requires Shape(crc, temp, stale, torn, bound)
    ensures ReadRecords(crc, temp) == stale && TornPart(crc, temp) == torn
  {
    TornDoesNotParse(crc, torn, bound);
    ReadWithTail(crc, stale, torn);
  }

  /** Every record that does not survive costs at least its header. */
  lemma {:induction false} SurvivorBytes(crc: Checksum, es: seq<Entry>, index: nat)
    ensures |EncodeAll(crc, Survivors(es, index))| <= |EncodeAll(crc, es)|
    ensures Survivors(es, index) != es ==> |EncodeAll(crc, Survivors(es, index))| + OVERHEAD <= |EncodeAll(crc, es)|
  {
    if es != [] {
      SurvivorBytes(crc, es[1..], index);
      assert [es[0]] + es[1..] == es;
      if es[0].index > index {
        assert ([es[0]] + Survivors(es[1..], index))[1..] == Survivors(es[1..], index);
      } else {
        assert [] + Survivors(es[1..], index) == Survivors(es[1..], index);
      }
    }
  }

  /** A torn record of at least a header decides the index and the length of whatever is parsed from it. */
  lemma HeaderDecides(crc: Checksum, d: Entry, torn: Bytes, b: Bytes)
    requires TornRecordOf(crc, torn, d) && OVERHEAD <= |torn| && torn <= b
    requires |b| >= OVERHEAD
    ensures Get(b[12..20]) == d.index && Get(b[20..24]) == |d.data|
  {
    RecordFields(crc, d, []);
    var r := Record(crc, d);
    assert r + [] == r;
    assert b[12..20] == torn[12..20] == r[12..20];
    assert b[20..24] == torn[20..24] == r[20..24];
  }

  /** Behind a torn record with its header in place, survivors are never recovered: the parse takes in more
      than the torn bytes. */
  lemma LongTornHides(crc: Checksum, d: Entry, torn: Bytes, survivors: seq<Entry>, index: nat)
    requires TornRecordOf(crc, torn, d) && d.index <= index && OVERHEAD <= |torn|
    requires AllInRange(survivors) && AllAbove(survivors, index) && survivors != []
    ensures Survivors(ReadRecords(crc, torn + EncodeAll(crc, survivors)), index) != survivors
    ensures !(EncodeAll(crc, survivors) <= torn + EncodeAll(crc, survivors))
  {
    var all := EncodeAll(crc, survivors);
    var b := torn + all;
    HeaderDecides(crc, d, torn, b);
    FirstIsStale(crc, b, d, torn, all, index);
    if Survivors(ReadRecords(crc, b), index) == survivors {
      assert false;
    }
    if all <= b {
      FirstIndex(crc, survivors, b);
      assert false;
    }
  }

  /** What is read has too few bytes left for records of more bytes than lie behind the torn ones. */
  lemma FirstIsStale(crc: Checksum, b: Bytes, d: Entry, torn: Bytes, all: Bytes, index: nat)
    requires |b| == |torn| + |all| && |torn| < |Record(crc, d)| && |b| >= OVERHEAD && d.index <= index
    requires Get(b[12..20]) == d.index && Get(b[20..24]) == |d.data|
    ensures ReadRecords(crc, b) == [] || |EncodeAll(crc, Survivors(ReadRecords(crc, b), index))| < |all|
  {
    var es := ReadRecords(crc, b);
    if es != [] {
      ReadIsPrefix(crc, b);
      SurvivorBytes(crc, es[1..], index);
      assert [] + Survivors(es[1..], index) == Survivors(es[1..], index);
    }
  }

  lemma FirstIndex(crc: Checksum, es: seq<Entry>, b: Bytes)
    requires AllInRange(es) && es != [] && EncodeAll(crc, es) <= b
    ensures |b| >= OVERHEAD && Get(b[12..20]) == es[0].index
  {
    RecordFields(crc, es[0], EncodeAll(crc, es[1..]));
    assert b[12..20] == EncodeAll(crc, es)[12..20];
  }

  /** Behind a shorter torn part they are, exactly when the bytes begin with the survivors' own. */
  lemma ShortTornRecovers(crc: Checksum, torn: Bytes, survivors: seq<Entry>, index: nat)
    requires |torn| < OVERHEAD && AllInRange(survivors) && AllAbove(survivors, index)
    ensures Survivors(ReadRecords(crc, torn + EncodeAll(crc, survivors)), index) == survivors
            <==> EncodeAll(crc, survivors) <= torn + EncodeAll(crc, survivors)
    ensures EncodeAll(crc, survivors) <= torn + EncodeAll(crc, survivors) ==>
            ReadRecords(crc, torn + EncodeAll(crc, survivors)) == survivors
  {
    var all := EncodeAll(crc, survivors);
    var b := torn + all;
    if all <= b {
      assert b == all + b[|all|..];
      ReadWithTail(crc, survivors, b[|all|..]);
      AllSurvive(survivors, index);
    }
    if Survivors(ReadRecords(crc, b), index) == survivors {
      NothingStaleFits(crc, b, survivors, index);
      ReadIsPrefix(crc, b);
    }
  }

  /** With less than a header to spare, only the survivors themselves can have been read. */
  lemma NothingStaleFits(crc: Checksum, b: Bytes, survivors: seq<Entry>, index: nat)
    requires |b| < |EncodeAll(crc, survivors)| + OVERHEAD
    requires Survivors(ReadRecords(crc, b), index) == survivors
    ensures ReadRecords(crc, b) == survivors
  {
    ReadIsPrefix(crc, b);
    SurvivorBytes(crc, ReadRecords(crc, b), index);
  }

  /** Behind a torn leftover the survivors are recovered if and only if their bytes, put behind the torn
      ones, begin with themselves - for every checksum function. */
  lemma TornLeftover(crc: Checksum, torn: Bytes, survivors: seq<Entry>, index: nat)
    requires TornOk(crc, torn, index) && AllInRange(survivors) && AllAbove(survivors, index)
    ensures Survivors(ReadRecords(crc, torn + EncodeAll(crc, survivors)), index) == survivors
            <==> EncodeAll(crc, survivors) <= torn + EncodeAll(crc, survivors)
    ensures EncodeAll(crc, survivors) <= torn + EncodeAll(crc, survivors) ==>
            ReadRecords(crc, torn + EncodeAll(crc, survivors)) == survivors
  {
    if |torn| < OVERHEAD {
      ShortTornRecovers(crc, torn, survivors, index);
    } else if survivors == [] {
      TornDoesNotParse(crc, torn, index);
      assert torn + EncodeAll(crc, survivors) == torn;
    } else {
      var d :| TornRecordOf(crc, torn, d) && d.index <= index;
      LongTornHides(crc, d, torn, survivors, index);
    }
  }

  /** What a compaction makes of its leftover: whole stale records stay in front, and are harmless as long as
      they lie at or below the compaction index; behind torn bytes the survivors are recovered exactly when
      the leftover is clear. */
  lemma CompactionRecovers(crc: Checksum, temp: Bytes, survivors: seq<Entry>, index: nat)
    requires LeftoverOk(crc, temp, index) && AllInRange(survivors) && AllAbove(survivors, index)
    ensures Survivors(ReadRecords(crc, temp + EncodeAll(crc, survivors)), index) == survivors
            <==> Clear(crc, temp, survivors)
    ensures Clear(crc, temp, survivors) ==>
            ReadRecords(crc, temp + EncodeAll(crc, survivors)) == ReadRecords(crc, temp) + survivors
    ensures UpTo(ReadRecords(crc, temp), index)
  {
    var stale, torn :| Shape(crc, temp, stale, torn, index);
    ShapeIsRead(crc, temp, stale, torn, index);
    TornLeftover(crc, torn, survivors, index);
    BehindStale(crc, stale, torn, EncodeAll(crc, survivors), index);
  }

  lemma BehindStale(crc: Checksum, stale: seq<Entry>, torn: Bytes, all: Bytes, index: nat)
    requires AllInRange(stale) && UpTo(stale, index)
    ensures ReadRecords(crc, (EncodeAll(crc, stale) + torn) + all) == stale + ReadRecords(crc, torn + all)
    ensures Survivors(ReadRecords(crc, (EncodeAll(crc, stale) + torn) + all), index)
            == Survivors(ReadRecords(crc, torn + all), index)
  {
    Assoc(EncodeAll(crc, stale), torn, all);
    ReadConcat(crc, stale, torn + all);
    SurvivorsConcat(stale, ReadRecords(crc, torn + all), index);
    NoSurvivors(stale, index);
    assert [] + Survivors(ReadRecords(crc, torn + all), index) == Survivors(ReadRecords(crc, torn + all), index);
  }

  /** A leftover of whole records: they are read back in front, and what recovery keeps is exactly the
      survivors if and only if none of the stale records lies above the index. */
  lemma WholeLeftover(crc: Checksum, stale: seq<Entry>, survivors: seq<Entry>, index: nat)
    requires AllInRange(stale) && AllInRange(survivors) && AllAbove(survivors, index)
    ensures ReadRecords(crc, EncodeAll(crc, stale) + EncodeAll(crc, survivors)) == stale + survivors
    ensures Survivors(ReadRecords(crc, EncodeAll(crc, stale) + EncodeAll(crc, survivors)), index) == survivors
            <==> UpTo(stale, index)
  {
    ReadConcat(crc, stale, EncodeAll(crc, survivors));
    ReadBack(crc, survivors);
    SurvivorsConcat(stale, survivors, index);
    NoSurvivors(stale, index);
    AllSurvive(survivors, index);
    assert |Survivors(stale, index) + survivors| == |Survivors(stale, index)| + |survivors|;
    if Survivors(stale, index) == [] { assert [] + survivors == survivors; }
  }

  /** A leftover of the first four bytes of any record hides every survivor, for every checksum function, once
      the first survivor has an index below 2^32. */
  lemma FourBytesHide(crc: Checksum, d: Entry, survivors: seq<Entry>, index: nat)
    requires d.InRange() && AllInRange(survivors) && AllAbove(survivors, index)
    requires survivors != [] && survivors[0].index < TWO_TO_THE_32
    ensures Survivors(ReadRecords(crc, Record(crc, d)[..4] + EncodeAll(crc, survivors)), index) != survivors
  {
    var torn, all := Record(crc, d)[..4], EncodeAll(crc, survivors);
    ShortTornRecovers(crc, torn, survivors, index);
    FirstIndex(crc, survivors, all);
    NotShifted(torn, all);
  }

  /** What is recovered instead, if anything, begins with an entry made up of the first survivor's bytes: its
      index is that survivor's term moved up by 32 bits. */
  lemma FourBytesMislead(crc: Checksum, d: Entry, survivors: seq<Entry>, index: nat)
    requires d.InRange() && AllInRange(survivors) && survivors != [] && survivors[0].index < TWO_TO_THE_32
    requires 0 < survivors[0].term < TWO_TO_THE_32 && index < TWO_TO_THE_32
    ensures var r := Survivors(ReadRecords(crc, Record(crc, d)[..4] + EncodeAll(crc, survivors)), index);
      r == [] || r[0].index == survivors[0].term * TWO_TO_THE_32
  {
    var torn, all := Record(crc, d)[..4], EncodeAll(crc, survivors);
    var b := torn + all;
    var e := survivors[0];
    RecordFields(crc, e, EncodeAll(crc, survivors[1..]));
    assert all[4..12] == all[4..8] + all[8..12] && all[12..20] == all[12..16] + all[16..20];
    assert b[12..20] == all[8..12] + all[12..16];
    LowHalf(all[4..8], all[8..12], e.term);
    LowHalf(all[12..16], all[16..20], e.index);
    GetConcat(all[8..12], all[12..16]);
    Widths();
    FirstSurvives(crc, b, index);
  }

  lemma FirstSurvives(crc: Checksum, b: Bytes, index: nat)
    requires |b| >= OVERHEAD && Get(b[12..20]) > index
    ensures var r := Survivors(ReadRecords(crc, b), index); r == [] || r[0].index == Get(b[12..20])
  {
  }

  /** A number below 2^32 in eight bytes is in the lower four. */
  lemma LowHalf(high: Bytes, low: Bytes, x: nat)
    requires |high| == |low| == 4 && Get(high + low) == x < TWO_TO_THE_32
    ensures Get(high) == 0 && Get(low) == x
  {
    Widths();
    GetConcat(high, low);
    GetBound(low);
  }

  /** Bytes that begin with themselves behind four others repeat every four bytes; an index does not. */
  lemma NotShifted(torn: Bytes, all: Bytes)
    requires |torn| == 4 && |all| >= OVERHEAD && 0 < Get(all[12..20]) < TWO_TO_THE_32
    ensures !(all <= torn + all)
  {
    var high, low := all[12..16], all[16..20];
    assert all[12..20] == high + low;
    Widths();
    GetConcat(high, low);
    if all <= torn + all { Shifted(torn, all); }
  }

  lemma Shifted(torn: Bytes, all: Bytes)
    requires |torn| == 4 && |all| >= OVERHEAD && all <= torn + all
    ensures all[16..20] == all[12..16]
  {
    assert all == (torn + all)[..|all|];
    assert (torn + all)[16..20] == all[12..16];
  }

  /** A record appended behind a torn one in the live file is read back, and nothing else with it, if and only
      if the bytes behind the whole records begin with it and nothing parses after it - for every checksum
      function. */
  lemma AppendBehindTorn(crc: Checksum, file: Bytes, e: Entry)
    requires e.InRange()
    ensures var b := TornPart(crc, file) + Record(crc, e);
      ReadRecords(crc, file + Record(crc, e)) == ReadRecords(crc, file) + [e]
      <==> Record(crc, e) <= b && ParseRecord(crc, b[|Record(crc, e)|..]) == None
  {
    var es, torn, record := ReadRecords(crc, file), TornPart(crc, file), Record(crc, e);
    ReadIsPrefix(crc, file);
    assert file == EncodeAll(crc, es) + torn;
    Assoc(EncodeAll(crc, es), torn, record);
    ReadConcat(crc, es, torn + record);
    OneRecordRead(crc, torn + record, e);
    SameTail(es, ReadRecords(crc, torn + record), [e]);
  }

  lemma SameTail<T>(a: seq<T>, b: seq<T>, c: seq<T>)
    ensures a + b == a + c <==> b == c
  {
    assert (a + b)[|a|..] == b && (a + c)[|a|..] == c;
  }

  lemma OneRecordRead(crc: Checksum, b: Bytes, e: Entry)
    requires e.InRange() && |b| >= |Record(crc, e)|
    ensures ReadRecords(crc, b) == [e] <==> Record(crc, e) <= b && ParseRecord(crc, b[|Record(crc, e)|..]) == None
  {
    var record := Record(crc, e);
    if record <= b {
      assert b == record + b[|record|..];
      ReadStep(crc, e, b[|record|..]);
    } else if ReadRecords(crc, b) == [e] {
      ReadIsPrefix(crc, b);
      EncodeOne(crc, e);
    }
  }

  // ---- Every point of a compaction ----

  /** What a crash would leave on disk: the live file, and the temporary file of a compaction. */
  datatype Image = Image(live: Bytes, temp: Option<Bytes>)

  function LeftIn(temp: Option<Bytes>): Bytes {
    if temp.Some? then temp.value else []
  }

  /** The contents of a file after each byte of a write at its end. */
  ghost function Growing(file: Bytes, bytes: Bytes): (r: seq<Bytes>)
    ensures |r| == |bytes|
  {
    seq(|bytes|, k requires 0 <= k < |bytes| => file + bytes[..k + 1])
  }

  lemma GrowingConcat(file: Bytes, x: Bytes, y: Bytes)
    ensures Growing(file, x + y) == Growing(file, x) + Growing(file + x, y)
  {
    forall k | 0 <= k < |x + y| ensures Growing(file, x + y)[k] == (Growing(file, x) + Growing(file + x, y))[k] {
      if k < |x| {
        assert (x + y)[..k + 1] == x[..k + 1];
      } else {
        PrefixBehind(x, y, k + 1 - |x|);
        Assoc(file, x, y[..k + 1 - |x|]);
      }
    }
  }

  ghost function Beside(live: Bytes, temps: seq<Bytes>): seq<Image> {
    seq(|temps|, k requires 0 <= k < |temps| => Image(live, Some(temps[k])))
  }

  /** What a crash during a compaction would find: the disk before it, the temporary file opened, the
      survivors written behind what is in it byte by byte, and the disk after the rename. */
  ghost function CompactionTrace(crc: Checksum, before: Image, survivors: seq<Entry>): seq<Image> {
    var leftover, all := LeftIn(before.temp), EncodeAll(crc, survivors);
    [before, Image(before.live, Some(leftover))]
    + Beside(before.live, Growing(leftover, all)) + [Image(leftover + all, None)]
  }

  lemma TraceAt(crc: Checksum, before: Image, survivors: seq<Entry>, k: nat)
    requires k < |CompactionTrace(crc, before, survivors)|
    ensures var leftover, all := LeftIn(before.temp), EncodeAll(crc, survivors);
      && |CompactionTrace(crc, before, survivors)| == |all| + 3
      && CompactionTrace(crc, before, survivors)[k] ==
         if k == 0 then before
         else if k <= |all| + 1 then Image(before.live, CrashedTemp(crc, before.temp, survivors, k))
         else Image(leftover + all, None)
  {
    var leftover := LeftIn(before.temp);
    assert leftover + [] == leftover;
  }

  /** A crash at any byte of a compaction: the live file is untouched until the rename, and from the rename on
      it reads back, above the compaction index, what it did before if and only if the leftover is clear. */
  lemma LiveFileIsOldOrNew(crc: Checksum, before: Image, index: nat, k: nat)
    requires LeftoverOk(crc, LeftIn(before.temp), index)
    requires k < |CompactionTrace(crc, before, Survivors(ReadRecords(crc, before.live), index))|
    ensures var survivors := Survivors(ReadRecords(crc, before.live), index);
      var trace := CompactionTrace(crc, before, survivors);
      && (k < |trace| - 1 ==> trace[k].live == before.live)
      && (Survivors(ReadRecords(crc, trace[k].live), index) == survivors <==>
          k < |trace| - 1 || Clear(crc, LeftIn(before.temp), survivors))
  {
    var es := ReadRecords(crc, before.live);
    var survivors := Survivors(es, index);
    ReadIsPrefix(crc, before.live);
    SurvivorsInRange(es, index);
    SurvivorsAbove(es, index);
    TraceAt(crc, before, survivors, k);
    CompactionRecovers(crc, LeftIn(before.temp), survivors, index);
  }

  lemma SurvivorsAbove(es: seq<Entry>, index: nat)
    ensures AllAbove(Survivors(es, index), index)
  {
    forall k | 0 <= k < |Survivors(es, index)| ensures Survivors(es, index)[k].index > index {
      assert Survivors(es, index)[k] in Survivors(es, index);
    }
  }

  // ---- A crash while the temporary file is written ----

  /** k bytes of the survivors are written behind the leftover: it still has the same shape, with the survivors'
      indices in the bound. */
  lemma CrashKeepsShape(crc: Checksum, temp: Bytes, survivors: seq<Entry>, k: nat, index: nat, bound: nat)
    requires LeftoverOk(crc, temp, index) && AllInRange(survivors) && AllAbove(survivors, index)
    requires UpTo(survivors, bound)
    requires index <= bound && Clear(crc, temp, survivors) && k <= |EncodeAll(crc, survivors)|
    ensures LeftoverOk(crc, temp + EncodeAll(crc, survivors)[..k], bound)
  {
    var stale, torn :| Shape(crc, temp, stale, torn, index);
    ShapeIsRead(crc, temp, stale, torn, index);
    Assoc(EncodeAll(crc, stale), torn, EncodeAll(crc, survivors)[..k]);
    CrashBehindStale(crc, stale, torn, survivors, k, index, bound);
  }

  /** The temporary file before, or with k - 1 bytes of the survivors in it. */
  function CrashedTemp(crc: Checksum, temp: Option<Bytes>, survivors: seq<Entry>, k: nat): Option<Bytes>
    requires k <= |EncodeAll(crc, survivors)| + 1
  {
    if k == 0 then temp else Some(LeftIn(temp) + EncodeAll(crc, survivors)[..k - 1])
  }

  lemma SameLeftover(crc: Checksum, bytes: Bytes, temp: Option<Bytes>, bound: nat)
    requires LeftoverOk(crc, bytes, bound) && temp == Some(bytes)
    ensures LeftoverOk(crc, LeftIn(temp), bound)
  {
  }

  lemma CrashedTempOk(crc: Checksum, temp: Option<Bytes>, survivors: seq<Entry>, k: nat, index: nat, bound: nat)
    requires LeftoverOk(crc, LeftIn(temp), index) && AllInRange(survivors) && AllAbove(survivors, index)
    requires UpTo(survivors, bound) && index <= bound && Clear(crc, LeftIn(temp), survivors)
    requires k <= |EncodeAll(crc, survivors)| + 1
    ensures LeftoverOk(crc, LeftIn(CrashedTemp(crc, temp, survivors, k)), bound)
  {
    if k == 0 {
      LeftoverGrows(crc, LeftIn(temp), index, bound);
    } else {
      var written := LeftIn(temp) + EncodeAll(crc, survivors)[..k - 1];
      CrashKeepsShape(crc, LeftIn(temp), survivors, k - 1, index, bound);
      SameLeftover(crc, written, CrashedTemp(crc, temp, survivors, k), bound);
    }
  }

  lemma CrashBehindStale(crc: Checksum, stale: seq<Entry>, torn: Bytes, survivors: seq<Entry>, k: nat, index: nat,
                         bound: nat)
    requires AllInRange(stale) && UpTo(stale, index) && TornOk(crc, torn, index) && index <= bound
    requires AllInRange(survivors) && AllAbove(survivors, index) && UpTo(survivors, bound)
    requires k <= |EncodeAll(crc, survivors)|
    requires EncodeAll(crc, survivors) <= torn + EncodeAll(crc, survivors)
    ensures LeftoverOk(crc, EncodeAll(crc, stale) + (torn + EncodeAll(crc, survivors)[..k]), bound)
  {
    if survivors == [] {
      assert torn + EncodeAll(crc, survivors)[..k] == torn;
      TornGrows(crc, torn, index, bound);
      assert Shape(crc, EncodeAll(crc, stale) + torn, stale, torn, bound);
    } else {
      TornIsShort(crc, torn, survivors, index);
      CutSurvivors(crc, stale, torn, survivors, k, bound);
    }
  }

  lemma TornIsShort(crc: Checksum, torn: Bytes, survivors: seq<Entry>, index: nat)
    requires TornOk(crc, torn, index) && AllInRange(survivors) && AllAbove(survivors, index) && survivors != []
    requires EncodeAll(crc, survivors) <= torn + EncodeAll(crc, survivors)
    ensures |torn| < OVERHEAD
  {
    if |torn| >= OVERHEAD {
      var d :| TornRecordOf(crc, torn, d) && d.index <= index;
      LongTornHides(crc, d, torn, survivors, index);
    }
  }

  lemma TornGrows(crc: Checksum, torn: Bytes, index: nat, bound: nat)
    requires TornOk(crc, torn, index) && index <= bound
    ensures TornOk(crc, torn, bound)
  {
  }

  /** The bytes after the whole stale records are, cut anywhere, some of the survivors and a torn part. */
  lemma CutSurvivors(crc: Checksum, stale: seq<Entry>, torn: Bytes, survivors: seq<Entry>, k: nat, bound: nat)
    requires AllInRange(stale) && UpTo(stale, bound) && |torn| < OVERHEAD
    requires AllInRange(survivors) && UpTo(survivors, bound) && k <= |EncodeAll(crc, survivors)|
    requires EncodeAll(crc, survivors) <= torn + EncodeAll(crc, survivors)
    ensures LeftoverOk(crc, EncodeAll(crc, stale) + (torn + EncodeAll(crc, survivors)[..k]), bound)
  {
    var all := EncodeAll(crc, survivors);
    var b := torn + all[..k];
    CutShifted(torn, all, k);
    if |b| <= |all| {
      var n := FitsExists(crc, survivors, |b|);
      CutInside(crc, survivors, |b|, n, bound);
      Regroup(crc, stale, survivors[..n], b, bound);
    } else {
      Regroup(crc, stale, survivors, b, bound);
    }
  }

  lemma CutShifted(torn: Bytes, all: Bytes, k: nat)
    requires all <= torn + all && k <= |all|
    ensures var b := torn + all[..k];
      if |b| <= |all| then b == all[..|b|] else all <= b && |b[|all|..]| <= |torn|
  {
    var b := torn + all[..k];
    assert b == (torn + all)[..|b|];
    if |b| <= |all| {
      assert all == (torn + all)[..|all|];
    } else {
      assert b[..|all|] == (torn + all)[..|all|];
    }
  }

  lemma CutInside(crc: Checksum, survivors: seq<Entry>, k: nat, n: nat, bound: nat)
    requires AllInRange(survivors) && UpTo(survivors, bound) && k <= |EncodeAll(crc, survivors)|
    requires FitsWholly(crc, survivors, k, n)
    ensures EncodeAll(crc, survivors[..n]) <= EncodeAll(crc, survivors)[..k]
    ensures TornOk(crc, EncodeAll(crc, survivors)[..k][|EncodeAll(crc, survivors[..n])|..], bound)
  {
    var fit, rest := survivors[..n], survivors[n..];
    var whole := EncodeAll(crc, fit);
    assert survivors == fit + rest;
    EncodeConcat(crc, fit, rest);
    var torn := EncodeAll(crc, survivors)[..k][|whole|..];
    assert torn == EncodeAll(crc, rest)[..k - |whole|];
    if n < |survivors| {
      NextDoesNotFit(crc, survivors, k, n);
      assert rest[0] == survivors[n];
      assert TornRecordOf(crc, torn, survivors[n]);
    }
  }

  lemma Regroup(crc: Checksum, stale: seq<Entry>, fit: seq<Entry>, b: Bytes, bound: nat)
    requires AllInRange(stale) && UpTo(stale, bound) && AllInRange(fit) && UpTo(fit, bound)
    requires EncodeAll(crc, fit) <= b && TornOk(crc, b[|EncodeAll(crc, fit)|..], bound)
    ensures LeftoverOk(crc, EncodeAll(crc, stale) + b, bound)
  {
    var temp, both := EncodeAll(crc, stale) + b, stale + fit;
    var torn := b[|EncodeAll(crc, fit)|..];
    assert temp == EncodeAll(crc, both) + torn by {
      EncodeConcat(crc, stale, fit);
      SplitPrefix(EncodeAll(crc, stale), EncodeAll(crc, fit), b);
    }
    BothUpTo(stale, fit, bound);
    assert Shape(crc, temp, both, torn, bound);
  }

  lemma SplitPrefix(a: Bytes, whole: Bytes, b: Bytes)
    requires whole <= b
    ensures a + b == (a + whole) + b[|whole|..]
  {
  }

  lemma BothUpTo(a: seq<Entry>, b: seq<Entry>, bound: nat)
    requires AllInRange(a) && UpTo(a, bound) && AllInRange(b) && UpTo(b, bound)
    ensures AllInRange(a + b) && UpTo(a + b, bound)
  {
  }

  lemma NothingLeft(crc: Checksum, bound: nat)
    ensures LeftoverOk(crc, [], bound)
  {
    assert Shape(crc, [], [], [], bound);
  }

  lemma LeftoverGrows(crc: Checksum, temp: Bytes, index: nat, bound: nat)
    requires LeftoverOk(crc, temp, index) && index <= bound
    ensures LeftoverOk(crc, temp, bound)
  {
    var stale, torn :| Shape(crc, temp, stale, torn, index);
    TornGrows(crc, torn, index, bound);
    assert Shape(crc, temp, stale, torn, bound);
  }
}
