/** Values shared by every component: bytes, log entries, and the usual option and result types. */
module Common {

  datatype Option<+T> = None | Some(value: T)

  datatype Result<+T, +E> = Ok(value: T) | Err(error: E)

  type byte = b: nat | b < 256

  type Bytes = seq<byte>

  const TWO_TO_THE_32: nat := 0x1_0000_0000
  const TWO_TO_THE_64: nat := 0x1_0000_0000_0000_0000

  /** One log record: a Raft entry as the log, the WAL and the messages carry it. */
  datatype Entry = Entry(term: nat, index: nat, data: Bytes) {

    /** The entry is one the Go struct can hold and the record format can carry: 64-bit numbers, and a
        payload whose length fits the 32-bit length field. */
    predicate InRange() {
      term < TWO_TO_THE_64 && index < TWO_TO_THE_64 && |data| < TWO_TO_THE_32
    }
  }

  /** Entry k of `log` has index offset + 1 + k. */
  predicate Contiguous(log: seq<Entry>, offset: nat) {
    forall k :: 0 <= k < |log| ==> log[k].index == offset + 1 + k
  }
}
