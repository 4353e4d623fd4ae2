/** A cursor over bytes: the bytes.Reader and bufio.Reader of the source. */
module Readers {
  import opened Common
  import opened BigEndian

  /** Reading n bytes at position i. */
  lemma Advance(b: Bytes, i: nat, n: nat)
    requires i + n <= |b|
    ensures b[i..][..n] == b[i..i + n] && b[i..][n..] == b[i + n..]
  {
  }

  lemma Assoc(a: Bytes, b: Bytes, c: Bytes)
    ensures (a + b) + c == a + (b + c)
  {
  }

  class Reader {
    const data: Bytes
    var pos: nat

    ghost predicate Valid()
      reads this
    {
      pos <= |data|
    }

    /** What is still to be read. */
    ghost function Left(): Bytes
      reads this
      requires Valid()
    {
      data[pos..]
    }

    constructor (data: Bytes)
      ensures Valid() && Left() == data
    {
      this.data := data;
      pos := 0;
    }

    /** io.ReadFull into a buffer of n bytes: all of them, or an error. */
    method ReadFull(n: nat) returns (r: Option<Bytes>)
      requires Valid()
      modifies this
      ensures Valid()
      ensures r == if n <= |old(Left())| then Some(old(Left())[..n]) else None
      ensures r.Some? ==> Left() == old(Left())[n..]
    {
      if pos + n <= |data| {
        assert Left()[..n] == data[pos..pos + n] && Left()[n..] == data[pos + n..];
        r := Some(data[pos..pos + n]);
        pos := pos + n;
      } else {
        pos := |data|;
        r := None;
      }
    }

    /** binary.Read of an unsigned number of w bytes. */
    method ReadNumber(w: nat) returns (r: Option<nat>)
      requires Valid()
      modifies this
      ensures Valid()
      ensures r == if w <= |old(Left())| then Some(Get(old(Left())[..w])) else None
      ensures r.Some? ==> Left() == old(Left())[w..]
    {
      var b := ReadFull(w);
      r := if b.Some? then Some(Get(b.value)) else None;
    }

    /** Reader.Read: at the end of the data an error - unless nothing was asked for and something is left -
        otherwise as many bytes as there are; the rest of the buffer stays zero. */
    method ReadSome(n: nat) returns (r: Option<Bytes>)
      requires Valid()
      modifies this
      ensures Valid()
      ensures r == if old(Left()) == [] then None
                   else if n <= |old(Left())| then Some(old(Left())[..n])
                   else Some(old(Left()) + seq(n - |old(Left())|, i => 0))
      ensures r.Some? ==> Left() == if n <= |old(Left())| then old(Left())[n..] else []
    {
      if pos == |data| {
        r := None;
      } else if pos + n <= |data| {
        assert Left()[..n] == data[pos..pos + n] && Left()[n..] == data[pos + n..];
        r := Some(data[pos..pos + n]);
        pos := pos + n;
      } else {
        r := Some(data[pos..] + seq(n - (|data| - pos), i => 0));
        pos := |data|;
      }
    }
  }
}
