/**
 * Walking a buffer of variable-length records.  How one record is unpacked is a
 * parameter: a function of the bytes that remain.
 */
module RecordWalk {
  import opened Common

  datatype Outcome<+T> = Record(reclen: int, value: T) | Failed(error: Error)

  type Unpacker<T> = string -> Outcome<T>

  /** An unpacked record is not empty and lies within the bytes given. */
  ghost predicate Sound<T>(unpack: Unpacker<T>) {
    forall bytes :: unpack(bytes).Record? ==> 0 < unpack(bytes).reclen <= |bytes|
  }

  /** Values already unpacked, then the outcome for the rest; an exception loses them all. */
  function Prepend<T>(values: seq<T>, rest: Result<seq<T>>): Result<seq<T>> {
    if rest.Ok? then Ok(values + rest.value) else rest
  }

  /** The records in the bytes that remain. */
  function Walk<T>(unpack: Unpacker<T>, minRecLen: nat, bytes: string): Result<seq<T>>
    requires Sound(unpack)
    decreases |bytes|
  {
    if |bytes| <= minRecLen then Ok([])
    else
      match unpack(bytes)
      case Failed(error) => Err(error)
      case Record(reclen, value) => Prepend([value], Walk(unpack, minRecLen, bytes[reclen..]))
  }

  lemma PrependAll<T>(first: seq<T>, more: seq<T>, rest: Result<seq<T>>)
    ensures Prepend(first, Prepend(more, rest)) == Prepend(first + more, rest)
    ensures Prepend([], rest) == rest
    ensures Prepend(first, Ok([])) == Ok(first)
  {
    if rest.Ok? {
      assert first + (more + rest.value) == first + more + rest.value;
      assert [] + rest.value == rest.value;
    }
    assert first + [] == first;
  }

  // What the walk decodes.

  function Flatten(records: seq<string>): string {
    if records == [] then "" else records[0] + Flatten(records[1..])
  }

  /** The record unpacks to the value whatever follows it. */
  ghost predicate Encodes<T>(unpack: Unpacker<T>, record: string, value: T) {
    forall rest :: unpack(record + rest) == Record(|record|, value)
  }

  ghost predicate AllEncode<T>(unpack: Unpacker<T>, records: seq<string>, values: seq<T>) {
    && |records| == |values|
    && forall k :: 0 <= k < |records| ==> Encodes(unpack, records[k], values[k])
  }

  /** How many leading records are followed by enough bytes for the loop to read them. */
  function Readable(records: seq<string>, tail: string, minRecLen: nat): (n: nat)
    ensures n <= |records|
  {
    if records == [] || |Flatten(records)| + |tail| <= minRecLen then 0
    else 1 + Readable(records[1..], tail, minRecLen)
  }

  lemma NothingLeft<T>(unpack: Unpacker<T>, minRecLen: nat, bytes: string)
    requires Sound(unpack) && |bytes| <= minRecLen
    ensures Walk(unpack, minRecLen, bytes) == Ok([])
  {
  }

  lemma StepOfWalk<T>(unpack: Unpacker<T>, minRecLen: nat, record: string, value: T, bytes: string,
                      values: seq<T>, rest: Result<seq<T>>)
    requires Sound(unpack) && Encodes(unpack, record, value) && |record| + |bytes| > minRecLen
    requires Walk(unpack, minRecLen, bytes) == Prepend(values, rest)
    ensures Walk(unpack, minRecLen, record + bytes) == Prepend([value] + values, rest)
  {
    assert unpack(record + bytes) == Record(|record|, value);
    assert (record + bytes)[|record|..] == bytes;
    PrependAll([value], values, rest);
  }

  /**
   * Concatenated records, followed by anything, decode to exactly the readable
   * records in order, and then to whatever follows if all of them were readable.
   */
  lemma {:induction false} WalkDecodes<T>(unpack: Unpacker<T>, minRecLen: nat, records: seq<string>,
                                          values: seq<T>, tail: string)
    requires Sound(unpack) && AllEncode(unpack, records, values)
    ensures var n := Readable(records, tail, minRecLen);
            Walk(unpack, minRecLen, Flatten(records) + tail) ==
            Prepend(values[..n], if n == |records| then Walk(unpack, minRecLen, tail) else Ok([]))
  {
    hide Walk, Encodes, Prepend;
    var n, rest := Readable(records, tail, minRecLen), Walk(unpack, minRecLen, tail);
    if records == [] {
      assert Flatten(records) + tail == tail;
      PrependAll([], [], rest);
    } else if n == 0 {
      PrependAll<T>([], [], Ok([]));
      NothingLeft(unpack, minRecLen, Flatten(records) + tail);
    } else {
      var more := records[1..];
      WalkDecodes(unpack, minRecLen, more, values[1..], tail);
      assert Flatten(records) + tail == records[0] + (Flatten(more) + tail);
      StepOfWalk(unpack, minRecLen, records[0], values[0], Flatten(more) + tail,
                 values[1..][..n - 1], if n == |records| then rest else Ok([]));
      assert values[..n] == [values[0]] + values[1..][..n - 1];
    }
  }

  /** All records are read exactly when the last one and the tail together exceed the minimum. */
  lemma {:induction false} AllReadable(records: seq<string>, tail: string, minRecLen: nat)
    ensures Readable(records, tail, minRecLen) == |records| <==>
            records == [] || |records[|records| - 1]| + |tail| > minRecLen
  {
    if |records| > 1 {
      AllReadable(records[1..], tail, minRecLen);
      LastInFlatten(records);
    } else if |records| == 1 {
      assert records[1..] == [] && Flatten(records) == records[0] + "";
    }
  }

  lemma {:induction false} LastInFlatten(records: seq<string>)
    requires records != []
    ensures |Flatten(records)| >= |records[|records| - 1]|
  {
    if |records| > 1 {
      LastInFlatten(records[1..]);
    }
  }

  /**
   * Round trip: a buffer of records, with at most the minimum number of bytes
   * after them, decodes to exactly their values if and only if there are no
   * records or the last one and those bytes are longer than the minimum.
   */
  lemma RecordsRoundTrip<T>(unpack: Unpacker<T>, minRecLen: nat, records: seq<string>, values: seq<T>, tail: string)
    requires Sound(unpack) && AllEncode(unpack, records, values) && |tail| <= minRecLen
    ensures Walk(unpack, minRecLen, Flatten(records) + tail) == Ok(values) <==>
            records == [] || |records[|records| - 1]| + |tail| > minRecLen
  {
    var n := Readable(records, tail, minRecLen);
    WalkDecodes(unpack, minRecLen, records, values, tail);
    AllReadable(records, tail, minRecLen);
    PrependAll(values[..n], [], Ok([]));
    assert values[..|values|] == values;
  }

  /** A bad record after good ones loses the values of the whole buffer exactly when it is long enough to be read. */
  lemma BadRecordLosesAll<T>(unpack: Unpacker<T>, minRecLen: nat, records: seq<string>, values: seq<T>, tail: string)
    requires Sound(unpack) && AllEncode(unpack, records, values) && unpack(tail).Failed?
    ensures Walk(unpack, minRecLen, Flatten(records) + tail) == Err(unpack(tail).error) <==> |tail| > minRecLen
  {
    WalkDecodes(unpack, minRecLen, records, values, tail);
    AllReadable(records, tail, minRecLen);
  }

  /** The record at position `k` of a cut is what is unpacked there. */
  ghost predicate CutAt<T>(unpack: Unpacker<T>, records: seq<string>, tail: string, values: seq<T>, k: nat)
    requires k < |records| && k < |values|
  {
    records[k] != "" && unpack(Flatten(records[k..]) + tail) == Record(|records[k]|, values[k])
  }

  lemma CutShifts<T>(unpack: Unpacker<T>, first: string, more: seq<string>, tail: string, value: T, values: seq<T>)
    requires |more| == |values| && forall k :: 0 <= k < |more| ==> CutAt(unpack, more, tail, values, k)
    ensures forall k :: 0 < k < |more| + 1 ==> CutAt(unpack, [first] + more, tail, [value] + values, k)
  {
    forall k | 0 < k < |more| + 1 ensures CutAt(unpack, [first] + more, tail, [value] + values, k) {
      assert CutAt(unpack, more, tail, values, k - 1);
      assert ([first] + more)[k..] == more[k - 1..];
    }
  }

  /**
   * A walk that succeeds cuts the buffer into one record per value, in order, and
   * leaves at most the minimum number of bytes unread.
   */
  lemma {:induction false} WalkPartitions<T>(unpack: Unpacker<T>, minRecLen: nat, bytes: string)
      returns (records: seq<string>, tail: string)
    requires Sound(unpack) && Walk(unpack, minRecLen, bytes).Ok?
    ensures bytes == Flatten(records) + tail && |tail| <= minRecLen
    ensures var values := Walk(unpack, minRecLen, bytes).value;
            |values| == |records| && forall k :: 0 <= k < |records| ==> CutAt(unpack, records, tail, values, k)
    decreases |bytes|
  {
    if |bytes| <= minRecLen {
      records, tail := [], bytes;
    } else {
      var reclen := unpack(bytes).reclen;
      var more;
      more, tail := WalkPartitions(unpack, minRecLen, bytes[reclen..]);
      records := [bytes[..reclen]] + more;
      assert records[1..] == more && records[0..] == records;
      assert bytes == bytes[..reclen] + bytes[reclen..] == Flatten(records) + tail;
      CutShifts(unpack, bytes[..reclen], more, tail, unpack(bytes).value,
                Walk(unpack, minRecLen, bytes[reclen..]).value);
    }
  }
}
