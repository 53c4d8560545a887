/**
 * Converting a packet to miniSEED records: an optional unflushed packing pass,
 * falling through to a flushed one.  libmseed's packer is an oracle.
 */
module DataLinkPackets {
  import opened Common
  import P = Packet
  import Id = StreamIdentifier

  const MAX_DATALINK_SIZE := 512

  datatype Encoding = Int32 | Steim1 | Steim2 | Float32 | Float64 | PlainText

  datatype Compression = Uncompressed | STEIM1 | STEIM2

  /** What `toDataLinkPackets` fills in before packing. */
  datatype Header = Header(
    recordLength: int, startTime: int, samplingRate: real, sampleCount: nat, encoding: Option<Encoding>, version2: bool)

  /**
   * A record the packer hands to the callback: its bytes, the start and end time
   * (nanoseconds) it parses back to, if it does, and the samples it encodes.
   */
  datatype Record = Record(data: string, times: Option<(int, int)>, first: nat, end: nat)

  datatype Pass = Pass(returned: int, records: seq<Record>, packedSamples: int)

  /** `msr3_pack` with and without MSF_FLUSHDATA. */
  type Packer = (Header, bool) -> Pass

  /** Times are microseconds. */
  datatype DataLinkPacket = DataLinkPacket(data: string, startTime: int, endTime: int)

  /** `duration_cast` from nanoseconds to microseconds: towards zero. */
  function ToMicroseconds(ns: int): int {
    if ns >= 0 then ns / 1000 else -((-ns) / 1000)
  }

  /** Nanoseconds cut to whole microseconds, dropping the fraction on either side of zero. */
  predicate TruncatesTo(ns: int, us: int) {
    if ns >= 0 then 1000 * us <= ns < 1000 * us + 1000 else 1000 * us - 1000 < ns <= 1000 * us
  }

  lemma TruncationIsUnique(ns: int, us: int)
    ensures TruncatesTo(ns, us) <==> us == ToMicroseconds(ns)
  {
  }

  /** `msRecordHandler` */
  function Handle(record: Record): DataLinkPacket {
    match record.times
    case Some((start, end)) => DataLinkPacket(record.data, ToMicroseconds(start), ToMicroseconds(end))
    case None => DataLinkPacket(record.data, 0, 0)
  }

  function HandleAll(records: seq<Record>): seq<DataLinkPacket> {
    seq(|records|, i requires 0 <= i < |records| => Handle(records[i]))
  }

  /** Each call of the packer's callback appends one packet to the output vector. */
  method CollectRecords(records: seq<Record>, outputPackets: seq<DataLinkPacket>)
      returns (collected: seq<DataLinkPacket>)
    ensures collected == outputPackets + HandleAll(records)
    ensures outputPackets == [] ==> collected == HandleAll(records)
  {
    collected := outputPackets;
    for k := 0 to |records|
      invariant collected == outputPackets + HandleAll(records)[..k]
    {
      collected := collected + [Handle(records[k])];
    }
  }

  function EncodingOf(kind: P.DataType, compression: Compression): Option<Encoding> {
    match kind
    case Integer32 =>
      (match compression case Uncompressed => Some(Int32) case STEIM1 => Some(Steim1) case STEIM2 => Some(Steim2))
    case Float => Some(Float32)
    case Double => Some(Float64)
    case Text => Some(PlainText)
    case Unknown => None
  }

  function HeaderOf(packet: P.State, maxRecordLength: int, useMiniSEED3: bool, compression: Compression): Header {
    Header(if maxRecordLength > 0 then maxRecordLength else 4096, packet.startTime, packet.samplingRate, P.Size(packet),
           if P.Size(packet) > 0 then EncodingOf(packet.dataType, compression) else None, !useMiniSEED3)
  }

  /** The encoding a sample type is written with. */
  predicate EncodesType(kind: P.DataType, compression: Compression, encoding: Option<Encoding>) {
    && (kind == P.Integer32 && compression == Uncompressed ==> encoding == Some(Int32))
    && (kind == P.Integer32 && compression == STEIM1 ==> encoding == Some(Steim1))
    && (kind == P.Integer32 && compression == STEIM2 ==> encoding == Some(Steim2))
    && (kind == P.Float ==> encoding == Some(Float32))
    && (kind == P.Double ==> encoding == Some(Float64))
    && (kind == P.Text ==> encoding == Some(PlainText))
  }

  /** The header handed to the packer describes the packet. */
  predicate Describes(header: Header, packet: P.State, maxRecordLength: int, useMiniSEED3: bool,
                      compression: Compression)
  {
    && (maxRecordLength > 0 ==> header.recordLength == maxRecordLength)
    && (maxRecordLength <= 0 ==> header.recordLength == 4096)
    && header.startTime == packet.startTime && header.samplingRate == packet.samplingRate
    && header.sampleCount == P.Size(packet)
    && (header.version2 <==> !useMiniSEED3)
    && (P.Size(packet) > 0 ==> EncodesType(packet.dataType, compression, header.encoding))
    && (P.Size(packet) == 0 ==> header.encoding == None)
  }

  /** Record by record: the bytes unchanged, and the times the record parses to, or zero. */
  predicate Carries(packets: seq<DataLinkPacket>, records: seq<Record>) {
    && |packets| == |records|
    && forall i :: 0 <= i < |records| ==>
         && packets[i].data == records[i].data
         && match records[i].times
            case Some((start, end)) => TruncatesTo(start, packets[i].startTime) && TruncatesTo(end, packets[i].endTime)
            case None => packets[i].startTime == 0 && packets[i].endTime == 0
  }

  lemma HandledRecordsAreCarried(records: seq<Record>)
    ensures Carries(HandleAll(records), records)
  {
    forall i | 0 <= i < |records| && records[i].times.Some?
      ensures TruncatesTo(records[i].times.value.0, HandleAll(records)[i].startTime)
      ensures TruncatesTo(records[i].times.value.1, HandleAll(records)[i].endTime)
    {
      TruncationIsUnique(records[i].times.value.0, HandleAll(records)[i].startTime);
      TruncationIsUnique(records[i].times.value.1, HandleAll(records)[i].endTime);
    }
  }

  /** When the unflushed pass is good enough to be returned. */
  predicate Keepable(pass: Pass) {
    && pass.returned >= 1
    && pass.returned == |pass.records|
    && forall i :: 0 <= i < |pass.records| ==> |pass.records[i].data| <= MAX_DATALINK_SIZE
  }

  /** The pass whose records are returned. */
  function ChosenPass(pack: Packer, header: Header, flushPackets: bool): Pass {
    if !flushPackets && Keepable(pack(header, false)) then pack(header, false) else pack(header, true)
  }

  /**
   * The packets carry the records of one pass over a header that describes the
   * packet: the unflushed one if that was asked for, made at least one record, made
   * as many as it says, and none longer than 512 bytes; otherwise the flushed one.
   */
  ghost predicate IsConversion(packets: seq<DataLinkPacket>, header: Header, packet: P.State, maxRecordLength: int,
                               useMiniSEED3: bool, compression: Compression, flushPackets: bool, pack: Packer) {
    var unflushed, flushed := pack(header, false), pack(header, true);
    && Describes(header, packet, maxRecordLength, useMiniSEED3, compression)
    && if !flushPackets && unflushed.returned > 0 && unflushed.returned == |unflushed.records|
          && forall i :: 0 <= i < |unflushed.records| ==> |unflushed.records[i].data| <= 512
       then Carries(packets, unflushed.records)
       else Carries(packets, flushed.records) && flushed.returned >= 0
  }

  lemma ConvertedIsConversion(packet: P.State, maxRecordLength: int, useMiniSEED3: bool, compression: Compression,
                              flushPackets: bool, sidLength: int, pack: Packer)
    ensures var header := HeaderOf(packet, maxRecordLength, useMiniSEED3, compression);
            var r := Converted(packet, header, flushPackets, sidLength, pack);
            && Describes(header, packet, maxRecordLength, useMiniSEED3, compression)
            && (r.Ok? ==> IsConversion(r.value, header, packet, maxRecordLength, useMiniSEED3, compression,
                                       flushPackets, pack))
  {
    var header := HeaderOf(packet, maxRecordLength, useMiniSEED3, compression);
    HandledRecordsAreCarried(ChosenPass(pack, header, flushPackets).records);
  }

  /** The checks on the unflushed pass, in the order the code makes them. */
  method CheckUnflushed(pass: Pass, outputPackets: seq<DataLinkPacket>) returns (isOkay: bool)
    requires outputPackets == HandleAll(pass.records)
    ensures isOkay <==> Keepable(pass)
  {
    isOkay := true;
    if pass.returned < 1 {
      isOkay := false;
    }
    if pass.returned != |outputPackets| && isOkay {
      isOkay := false;
    }
    if isOkay {
      for i := 0 to |outputPackets|
        invariant isOkay <==> forall j :: 0 <= j < i ==> |pass.records[j].data| <= MAX_DATALINK_SIZE
      {
        if |outputPackets[i].data| > MAX_DATALINK_SIZE {
          isOkay := false;
        }
      }
    }
  }

  /** The outcome of `toDataLinkPackets`: the records of the chosen pass, or an exception. */
  function Converted(packet: P.State, header: Header, flushPackets: bool, sidLength: int, pack: Packer)
      : Result<seq<DataLinkPacket>>
  {
    var chosen := ChosenPass(pack, header, flushPackets);
    if packet.samplingRate > 0.0 && packet.identifier.Some? && sidLength >= 1 && chosen.returned >= 0
    then Ok(HandleAll(chosen.records))
    else Err(RuntimeError)
  }

  /**
   * The result is exactly the records of one pass: the unflushed one if it may be
   * kept, otherwise the flushed one with nothing left over from the first.
   */
  method ToDataLinkPackets(packet: P.State, maxRecordLength: int, useMiniSEED3: bool, compression: Compression,
                           flushPackets: bool, sidLength: int, pack: Packer)
      returns (r: Result<seq<DataLinkPacket>>)
    ensures r == Converted(packet, HeaderOf(packet, maxRecordLength, useMiniSEED3, compression),
                           flushPackets, sidLength, pack)
    ensures r.Ok? ==> packet.samplingRate > 0.0 && packet.identifier.Some? && sidLength >= 1
    ensures packet.samplingRate > 0.0 && packet.identifier.Some? && sidLength >= 1
            && (forall header :: Describes(header, packet, maxRecordLength, useMiniSEED3, compression) ==>
                  pack(header, true).returned >= 0)
            ==> r.Ok?
    ensures r.Ok? ==> exists header :: IsConversion(
              r.value, header, packet, maxRecordLength, useMiniSEED3, compression, flushPackets, pack)
  {
    ConvertedIsConversion(packet, maxRecordLength, useMiniSEED3, compression, flushPackets, sidLength, pack);
    var outputPackets: seq<DataLinkPacket> := [];
    var recordLength := if maxRecordLength > 0 then maxRecordLength else 4096;
    if packet.samplingRate <= 0.0 {
      return Err(RuntimeError);
    }
    if packet.identifier.None? || sidLength < 1 {
      return Err(RuntimeError);
    }
    var encoding: Option<Encoding> := None;
    if P.Size(packet) > 0 {
      encoding := EncodingOf(packet.dataType, compression);
    }
    var header := Header(recordLength, packet.startTime, packet.samplingRate, P.Size(packet), encoding, !useMiniSEED3);
    if !flushPackets {
      var pass := pack(header, false);
      outputPackets := CollectRecords(pass.records, outputPackets);
      var isOkay := CheckUnflushed(pass, outputPackets);
      if isOkay {
        return Ok(outputPackets);
      }
      outputPackets := [];
    }
    var pass := pack(header, true);
    outputPackets := CollectRecords(pass.records, outputPackets);
    if pass.returned < 0 {
      return Err(RuntimeError);
    }
    return Ok(outputPackets);
  }

  // What one pass promises, and what that gives for the result.

  /** The packer's contract: records encode consecutive runs of samples, from the first on. */
  ghost predicate PacksInOrder(records: seq<Record>) {
    && (records != [] ==> records[0].first == 0)
    && (forall i :: 0 <= i < |records| ==> records[i].first <= records[i].end)
    && (forall i :: 0 < i < |records| ==> records[i].first == records[i - 1].end)
  }

  lemma {:induction false} RunsAreOrdered(records: seq<Record>, i: nat, j: nat)
    requires PacksInOrder(records) && i < j < |records|
    ensures records[i].end <= records[j].first
    decreases j
  {
    if i + 1 < j {
      RunsAreOrdered(records, i, j - 1);
    }
  }

  /** If each pass packs every sample at most once, so does the returned mixture of two passes. */
  lemma NoSampleIsSentTwice(pack: Packer, header: Header, flushPackets: bool, sample: nat, i: nat, j: nat)
    requires PacksInOrder(pack(header, false).records) && PacksInOrder(pack(header, true).records)
    requires var records := ChosenPass(pack, header, flushPackets).records;
             i < |records| && j < |records|
             && records[i].first <= sample < records[i].end && records[j].first <= sample < records[j].end
    ensures i == j
  {
    var records := ChosenPass(pack, header, flushPackets).records;
    if i < j {
      RunsAreOrdered(records, i, j);
    } else if j < i {
      RunsAreOrdered(records, j, i);
    }
  }

  /** Truncation keeps the order of start and end, on both sides of the epoch. */
  lemma TruncationKeepsOrder(a: int, b: int)
    requires a <= b
    ensures ToMicroseconds(a) <= ToMicroseconds(b)
    ensures -1000 < a - 1000 * ToMicroseconds(a) < 1000
    ensures TruncatesTo(a, ToMicroseconds(a))
  {
    if a < 0 && b < 0 {
      assert -b <= -a;
    }
  }

  lemma RecordsKeepTimeOrder(records: seq<Record>)
    requires forall i :: 0 <= i < |records| && records[i].times.Some? ==>
               records[i].times.value.0 <= records[i].times.value.1
    ensures forall i :: 0 <= i < |records| ==> HandleAll(records)[i].startTime <= HandleAll(records)[i].endTime
  {
    forall i | 0 <= i < |records| ensures HandleAll(records)[i].startTime <= HandleAll(records)[i].endTime {
      if records[i].times.Some? {
        TruncationKeepsOrder(records[i].times.value.0, records[i].times.value.1);
      }
    }
  }

  /** How many samples, from the first on, the records encode. */
  function LastEnd(records: seq<Record>): nat {
    if records == [] then 0 else records[|records| - 1].end
  }

  /** Some record encodes the sample. */
  ghost predicate IsSent(records: seq<Record>, sample: nat) {
    exists i :: 0 <= i < |records| && records[i].first <= sample < records[i].end
  }

  /** Records in order leave no gaps: exactly the samples before the last end are encoded. */
  lemma {:induction false} SentBelowLastEnd(records: seq<Record>, sample: nat)
    requires PacksInOrder(records)
    ensures IsSent(records, sample) <==> sample < LastEnd(records)
  {
    if records != [] {
      var init, last := records[..|records| - 1], records[|records| - 1];
      SentBelowLastEnd(init, sample);
      if IsSent(init, sample) {
        var i :| 0 <= i < |init| && init[i].first <= sample < init[i].end;
        assert records[i] == init[i];
      }
      if LastEnd(init) <= sample < last.end {
        assert last.first == LastEnd(init);
      }
    }
  }

  /**
   * The packer's contract for both passes: records in order, the reported count
   * is what they encode, and a flushed pass that does not fail encodes everything.
   */
  ghost predicate PacksAsReported(pack: Packer, header: Header) {
    && PacksInOrder(pack(header, false).records) && PacksInOrder(pack(header, true).records)
    && pack(header, false).packedSamples == LastEnd(pack(header, false).records)
    && (pack(header, true).returned >= 0 ==> LastEnd(pack(header, true).records) == header.sampleCount)
  }

  /** The condition under which the program only warns that samples may be missing. */
  predicate WarnsOnly(pack: Packer, header: Header, flushPackets: bool) {
    && !flushPackets && Keepable(pack(header, false))
    && header.sampleCount > 0 && pack(header, false).packedSamples < header.sampleCount
  }

  /**
   * A conversion that succeeds sends every sample of the packet exactly when it
   * flushes, or repacks, or its unflushed pass reports all samples packed; in
   * other words, unless it logged that samples may be missing.
   */
  lemma EverySampleIsSent(pack: Packer, header: Header, flushPackets: bool)
    requires PacksAsReported(pack, header) && ChosenPass(pack, header, flushPackets).returned >= 0
    ensures (forall sample: nat :: sample < header.sampleCount ==>
               IsSent(ChosenPass(pack, header, flushPackets).records, sample))
            <==> (flushPackets || !Keepable(pack(header, false))
                  || pack(header, false).packedSamples >= header.sampleCount)
    ensures (forall sample: nat :: sample < header.sampleCount ==>
               IsSent(ChosenPass(pack, header, flushPackets).records, sample))
            <==> !WarnsOnly(pack, header, flushPackets)
  {
    var records := ChosenPass(pack, header, flushPackets).records;
    forall sample: nat ensures IsSent(records, sample) <==> sample < LastEnd(records) {
      SentBelowLastEnd(records, sample);
    }
    if header.sampleCount > 0 {
      assert IsSent(records, header.sampleCount - 1) <==> header.sampleCount <= LastEnd(records);
    }
  }

  /** The samples that are not sent are the trailing ones the unflushed pass left over. */
  lemma MissingSamplesAreTheTail(pack: Packer, header: Header, flushPackets: bool, sample: nat)
    requires PacksAsReported(pack, header) && ChosenPass(pack, header, flushPackets).returned >= 0
    requires sample < header.sampleCount
    ensures !IsSent(ChosenPass(pack, header, flushPackets).records, sample) <==>
            WarnsOnly(pack, header, flushPackets) && sample >= pack(header, false).packedSamples
  {
    SentBelowLastEnd(ChosenPass(pack, header, flushPackets).records, sample);
  }

  /** A packer for which this happens: one small record that stops short of the last sample. */
  lemma UnflushedTailIsDropped(header: Header, record: Record)
    requires record.first == 0 && record.end < header.sampleCount && |record.data| <= MAX_DATALINK_SIZE
    ensures var flushed := Record("", None, 0, header.sampleCount);
            var pack := (h: Header, flush: bool) =>
              if flush then Pass(1, [flushed], header.sampleCount) else Pass(1, [record], record.end);
            && PacksAsReported(pack, header)
            && ChosenPass(pack, header, false).returned >= 0
            && (forall i :: 0 <= i < |ChosenPass(pack, header, false).records| ==>
                  ChosenPass(pack, header, false).records[i].end < header.sampleCount)
            && !IsSent(ChosenPass(pack, header, false).records, header.sampleCount - 1)
  {
    var flushed := Record("", None, 0, header.sampleCount);
    var pack := (h: Header, flush: bool) =>
      if flush then Pass(1, [flushed], header.sampleCount) else Pass(1, [record], record.end);
    MissingSamplesAreTheTail(pack, header, false, header.sampleCount - 1);
  }
}
