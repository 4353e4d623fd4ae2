/** The write-ahead log as a mutable file. */
module Wals {
  import opened Common
  import opened BigEndian
  import opened Readers
  import opened WalFormat
  import opened Leftovers

  /** PutUint32, PutUint64 and copy: bytes written into a buffer at an offset. */
  method PutAt(buf: array<byte>, at: nat, bytes: Bytes)
    requires at + |bytes| <= buf.Length
    modifies buf
    ensures buf[..] == old(buf[..at]) + bytes + old(buf[at + |bytes|..])
  {
    forall i | 0 <= i < |bytes| {
      buf[at + i] := bytes[i];
    }
  }

  method Encode(e: Entry) returns (buf: array<byte>)
    ensures fresh(buf) && buf[..] == EncodeEntry(e)
  {
    buf := new byte[20 + |e.data|](i => 0);
    PutAt(buf, 0, Put(8, e.term));
    PutAt(buf, 8, Put(8, e.index));
    PutAt(buf, 16, Put(4, |e.data|));
    PutAt(buf, 20, e.data);
  }

  class Wal {
    const crc: Checksum
    /** The live file. */
    var file: Bytes
    /** The temporary file next to it, if one exists. */
    var temp: Option<Bytes>

    constructor (crc: Checksum, file: Bytes, temp: Option<Bytes>)
      ensures this.crc == crc && this.file == file && this.temp == temp
    {
      this.crc, this.file, this.temp := crc, file, temp;
    }

    /** A write at the end of the file. `states` is what a crash could find: some of the bytes may be on
        disk without the rest. */
    method Write(bytes: Bytes) returns (ghost states: seq<Bytes>)
      modifies this`file
      ensures file == old(file) + bytes && states == Growing(old(file), bytes)
    {
      states := Growing(file, bytes);
      file := file + bytes;
    }

    /** Two writes: the checksum, then the entry. */
    method Append(e: Entry) returns (ghost states: seq<Bytes>)
      modifies this`file
      ensures file == old(file) + Record(crc, e) && states == Growing(old(file), Record(crc, e))
    {
      var encoded := Encode(e);
      var sum := crc(encoded[..]);
      ghost var first := Write(Put(4, sum));
      ghost var second := Write(encoded[..]);
      states := first + second;
      GrowingConcat(old(file), Put(4, sum), EncodeEntry(e));
      Assoc(old(file), Put(4, sum), EncodeEntry(e));
    }

    method ReadOne(reader: Reader) returns (r: Option<Parsed>)
      requires reader.Valid()
      modifies reader
      ensures reader.Valid()
      ensures r == ParseRecord(crc, old(reader.Left()))
      ensures r.Some? ==> reader.Left() == old(reader.Left())[r.value.size..]
    {
      ghost var b := reader.Left();
      var storedCrc := reader.ReadNumber(4);
      if storedCrc == None { return None; }
      var term := reader.ReadNumber(8);
      if term == None { return None; }
      var index := reader.ReadNumber(8);
      if index == None { return None; }
      var dataLen := reader.ReadNumber(4);
      if dataLen == None { return None; }
      Advance(b, 4, 8);
      Advance(b, 12, 8);
      Advance(b, 20, 4);
      var data := reader.ReadFull(dataLen.value);
      if data == None { return None; }
      Advance(b, 24, dataLen.value);
      var e := Entry(term.value, index.value, data.value);
      var encoded := Encode(e);
      if crc(encoded[..]) != storedCrc.value { return None; }
      r := Some(Parsed(e, 4 + 8 + 8 + 4 + |data.value|));
    }

    method ReadAll() returns (entries: seq<Entry>)
      ensures entries == ReadRecords(crc, file)
    {
      var reader := new Reader(file);
      entries := [];
      while true
        invariant reader.Valid() && fresh(reader)
        invariant ReadRecords(crc, file) == entries + ReadRecords(crc, reader.Left())
        decreases |reader.Left()|
      {
        ghost var left := reader.Left();
        var p := ReadOne(reader);
        if p == None { break; }
        entries := entries + [p.value.entry];
      }
    }

    /** The loop of TruncateAfter: the running offset behind the first record with the given index. */
    method FindEnd(index: nat) returns (end: Option<nat>)
      ensures end == TruncationPoint(crc, file, index)
    {
      var reader := new Reader(file);
      var offset: nat := 0;
      ghost var passed: seq<Entry> := [];
      while true
        invariant reader.Valid() && fresh(reader)
        invariant Scanned(crc, file, index, passed, reader.Left(), offset)
        decreases |reader.Left()|
      {
        ghost var left := reader.Left();
        var p := ReadOne(reader);
        if p == None {
          ScanEnd(crc, file, index, passed, left, offset);
          return None;
        }
        ScanOne(crc, file, index, passed, left, offset, p.value);
        offset := offset + p.value.size;
        if p.value.entry.index == index {
          return Some(offset);
        }
        passed := passed + [p.value.entry];
      }
      end := None;
    }

    /** Leaves exactly the records through the first with the given index; without one, the file stays. */
    method TruncateAfter(index: nat) returns (found: bool)
      modifies this`file
      ensures match TruncateList(ReadRecords(crc, old(file)), index)
              case None => !found && file == old(file)
              case Some(t) => found && file == EncodeAll(crc, t)
    {
      var end := FindEnd(index);
      found := end.Some?;
      if found {
        PrefixIsBytes(crc, file, TruncateList(ReadRecords(crc, file), index).value);
        file := file[..end.value];
      }
    }

    /** Appends entries one after the other. */
    method AppendAll(es: seq<Entry>) returns (ghost states: seq<Bytes>)
      modifies this`file
      ensures file == old(file) + EncodeAll(crc, es)
      ensures states == Growing(old(file), EncodeAll(crc, es))
    {
      states := [];
      assert file + [] == file;
      for i := 0 to |es|
        invariant file == old(file) + EncodeAll(crc, es[..i])
        invariant states == Growing(old(file), EncodeAll(crc, es[..i]))
      {
        ghost var more := Append(es[i]);
        states := states + more;
        OneMore(crc, old(file), es, i);
      }
      assert es[..|es|] == es;
    }

    /** Rewrites the file without the entries up to `compactIndex`: into the temporary file, then renamed
        over the live one. `trace` is what a crash would find at any moment. */
    method CompactWAL(compactIndex: nat) returns (ghost trace: seq<Image>)
      modifies this
      ensures file == LeftIn(old(temp)) + EncodeAll(crc, Survivors(ReadRecords(crc, old(file)), compactIndex))
      ensures temp == None
      ensures trace == CompactionTrace(crc, Image(old(file), old(temp)),
                                       Survivors(ReadRecords(crc, old(file)), compactIndex))
    {
      ghost var start := Image(file, temp);
      var entries := ReadAll();
      var survivors := KeepAbove(entries, compactIndex);
      // Opening for appending keeps what a crashed compaction left there.
      temp := Some(if temp.Some? then temp.value else []);
      ghost var ready := Image(file, temp);
      var tempWal := new Wal(crc, temp.value, None);
      ghost var states := tempWal.AppendAll(survivors);
      ghost var writing := Beside(file, states);
      file, temp := tempWal.file, None;
      trace := [start, ready] + writing + [Image(file, temp)];
    }
  }

  lemma OneMore(crc: Checksum, file: Bytes, es: seq<Entry>, i: nat)
    requires i < |es|
    ensures file + EncodeAll(crc, es[..i]) + Record(crc, es[i]) == file + EncodeAll(crc, es[..i + 1])
    ensures Growing(file, EncodeAll(crc, es[..i])) + Growing(file + EncodeAll(crc, es[..i]), Record(crc, es[i]))
            == Growing(file, EncodeAll(crc, es[..i + 1]))
  {
    assert es[..i + 1] == es[..i] + [es[i]];
    EncodeConcat(crc, es[..i], [es[i]]);
    EncodeOne(crc, es[i]);
    GrowingConcat(file, EncodeAll(crc, es[..i]), Record(crc, es[i]));
    Assoc(file, EncodeAll(crc, es[..i]), Record(crc, es[i]));
  }

  method KeepAbove(entries: seq<Entry>, index: nat) returns (survivors: seq<Entry>)
    ensures survivors == Survivors(entries, index)
  {
    survivors := [];
    for i := 0 to |entries|
      invariant survivors == Survivors(entries[..i], index)
    {
      SurvivorsNext(entries, i, index);
      if entries[i].index > index {
        survivors := survivors + [entries[i]];
      }
    }
    assert entries[..|entries|] == entries;
  }
}
