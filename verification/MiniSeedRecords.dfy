/**
 * Unpacking the miniSEED records in a SEEDLink buffer.  libmseed's parser is an
 * oracle: what it makes of the bytes that remain.
 */
module MiniSeedRecords {
  import opened Common
  import opened Text
  import opened RecordWalk
  import P = Packet
  import Id = StreamIdentifier

  const TWO_TO_THE_31: nat := 0x8000_0000
  const TWO_TO_THE_53: nat := 0x20_0000_0000_0000
  const TWO_TO_THE_64: nat := 0x1_0000_0000_0000_0000

  datatype Names = Names(network: string, station: string, location: string, channel: string)

  /** A parsed record: its names, unless the source identifier is malformed, and its samples. */
  datatype Content = Content(names: Option<Names>, samprate: real, starttime: int, samples: P.Samples)

  datatype Parsed = Parsed(reclen: int, content: Content) | NotParsed

  type Parser = string -> Parsed

  /** The parser's contract: a parsed record is not empty and lies within the bytes given. */
  ghost predicate SoundParser(parse: Parser) {
    forall bytes :: parse(bytes).Parsed? ==> 0 < parse(bytes).reclen <= |bytes|
  }

  // Start times pass through a double.

  /** The distance between neighbouring doubles at the magnitude `n`, or 1 where all integers are doubles. */
  function Spacing(n: nat): (u: nat)
    ensures u > 0
  {
    if n < TWO_TO_THE_53 then 1 else 2 * Spacing(n / 2)
  }

  /** The multiple of `u` nearest to `n`, ties to the even multiple. */
  function NearestMultiple(n: nat, u: nat): nat
    requires u > 0
  {
    var q, rest := n / u, n % u;
    if 2 * rest < u || (2 * rest == u && q % 2 == 0) then q * u else (q + 1) * u
  }

  /** Converting an integer to a double; `std::round` then has nothing left to do. */
  function ToDouble(n: int): int {
    if n >= 0 then NearestMultiple(n, Spacing(n)) else 0 - NearestMultiple(-n, Spacing(-n))
  }

  lemma {:induction false} SpacingBound(n: nat, k: nat)
    requires n < TWO_TO_THE_53 * Power2(k)
    ensures Spacing(n) <= Power2(k)
    decreases k
  {
    if n >= TWO_TO_THE_53 {
      SpacingBound(n / 2, k - 1);
    }
  }

  function Power2(k: nat): (r: nat)
    ensures r > 0
  {
    if k == 0 then 1 else 2 * Power2(k - 1)
  }

  lemma NearestIsNear(n: nat, u: nat)
    requires u > 0
    ensures 2 * n - u <= 2 * NearestMultiple(n, u) <= 2 * n + u
    ensures NearestMultiple(n, u) == n <==> n % u == 0
  {
    var q, rest := n / u, n % u;
    assert n == q * u + rest;
    assert (q + 1) * u == q * u + u;
  }

  /**
   * The start time of a record is kept exactly only if it is a double; within 2^61
   * nanoseconds of the epoch (from 1896 until 2043) it moves by at most 128.
   */
  lemma StartTimeIsRounded(n: int)
    ensures var magnitude := if n >= 0 then n else -n;
            && (ToDouble(n) == n <==> magnitude % Spacing(magnitude) == 0)
            && (magnitude < TWO_TO_THE_53 * 256 ==> -128 <= ToDouble(n) - n <= 128)
  {
    var magnitude := if n >= 0 then n else -n;
    NearestIsNear(magnitude, Spacing(magnitude));
    if magnitude < TWO_TO_THE_53 * 256 {
      assert Power2(8) == 256;
      SpacingBound(magnitude, 8);
    }
  }

  // One record.

  function LocationOf(location: string): string {
    var given := if location == "" then "--" else location;
    if Id.IsBlank(given) then "" else Id.ConvertString(given)
  }

  function IdentifierOf(names: Names): Id.Fields {
    Id.Fields(Id.ConvertString(names.network), Id.ConvertString(names.station), Id.ConvertString(names.channel),
              LocationOf(names.location), true)
  }

  predicate GoodNames(names: Names) {
    && !Id.IsBlank(Id.ConvertString(names.network))
    && !Id.IsBlank(Id.ConvertString(names.station))
    && !Id.IsBlank(Id.ConvertString(names.channel))
  }

  function DataOf(samples: P.Samples): Option<P.Samples> {
    if P.Count(samples) > 0 then Some(samples) else None
  }

  /** The packet of a record, or why it cannot be made into one. */
  function PacketOf(content: Content): Result<P.State> {
    if content.names.None? then Err(RuntimeError)
    else if !GoodNames(content.names.value) || content.samprate <= 0.0 then Err(InvalidArgument)
    else if P.Count(content.samples) > 0 && content.samples.Chars? then Err(RuntimeError)
    else Ok(P.Canonical(Some(IdentifierOf(content.names.value)), ToDouble(content.starttime), content.samprate,
                        DataOf(content.samples)))
  }

  // What the packet of a record says, field by field.

  /** Upper case, without blanks, and not only white space: what the setters leave as it is. */
  predicate IsPlain(s: string) {
    NoLower(s) && ' ' !in s && !Id.IsBlank(s)
  }

  predicate PlainNames(names: Names) {
    && IsPlain(names.network) && IsPlain(names.station) && IsPlain(names.channel)
    && (names.location == "" || IsPlain(names.location))
  }

  /** The identifier has the fields of these names, each in its place, and "--" for no location. */
  predicate NamedBy(id: Id.Fields, names: Names) {
    && id.network == names.network && id.station == names.station && id.channel == names.channel
    && id.hasLocationCode
    && (names.location != "" ==> id.locationCode == names.location)
    && (names.location == "" ==> id.locationCode == "--")
  }

  /** The packet is the record's: its names, rate and samples, and its start to within 128 nanoseconds. */
  ghost predicate IsPacketOf(packet: P.State, content: Content) {
    && packet.identifier.Some? && content.names.Some?
    && (PlainNames(content.names.value) ==>
          && NamedBy(packet.identifier.value, content.names.value)
          && Id.NameOf(packet.identifier.value) ==
             Ok(content.names.value.network + "." + content.names.value.station + "." + content.names.value.channel
                + "." + if content.names.value.location == "" then "--" else content.names.value.location))
    && packet.samplingRate == content.samprate
    && (P.Count(content.samples) > 0 ==> P.HoldsExactly(packet, content.samples))
    && (P.Count(content.samples) == 0 ==> P.Size(packet) == 0)
    && (-0x2000_0000_0000_0000 < content.starttime < 0x2000_0000_0000_0000 ==>
          -128 <= packet.startTime - content.starttime <= 128)
  }

  /** A record makes a packet when it has names, none of the first three blank, a positive rate, and no text. */
  ghost predicate CanBeUnpacked(content: Content) {
    && content.names.Some?
    && (exists c :: c in Id.ConvertString(content.names.value.network) && !IsSpace(c))
    && (exists c :: c in Id.ConvertString(content.names.value.station) && !IsSpace(c))
    && (exists c :: c in Id.ConvertString(content.names.value.channel) && !IsSpace(c))
    && content.samprate > 0.0
    && (P.Count(content.samples) > 0 ==> !content.samples.Chars?)
  }

  lemma PlainNamesAreKept(names: Names)
    requires PlainNames(names)
    ensures GoodNames(names) && NamedBy(IdentifierOf(names), names)
  {
    var dashes := "--";
    assert dashes[0] == '-' && dashes[0] in dashes;
    Id.ConvertKeepsNormalised(names.network);
    Id.ConvertKeepsNormalised(names.station);
    Id.ConvertKeepsNormalised(names.channel);
    Id.ConvertKeepsNormalised(if names.location == "" then dashes else names.location);
  }

  /** The name of an identifier with these fields reads NET.STA.CHAN.LOC. */
  lemma NameReads(id: Id.Fields, names: Names)
    requires PlainNames(names) && NamedBy(id, names)
    ensures Id.NameOf(id) ==
            Ok(names.network + "." + names.station + "." + names.channel
               + "." + if names.location == "" then "--" else names.location)
  {
    assert names.network != "" && names.station != "" && names.channel != "";
  }

  lemma GoodNamesAreNotBlank(names: Names)
    ensures GoodNames(names) <==>
            && (exists c :: c in Id.ConvertString(names.network) && !IsSpace(c))
            && (exists c :: c in Id.ConvertString(names.station) && !IsSpace(c))
            && (exists c :: c in Id.ConvertString(names.channel) && !IsSpace(c))
  {
    hide Id.ConvertString;
  }

  lemma CanonicalHolds(id: Option<Id.Fields>, start: int, rate: real, samples: P.Samples)
    ensures var p := P.Canonical(id, start, rate, DataOf(samples));
            && p.identifier == id && p.startTime == start && p.samplingRate == rate
            && (P.Count(samples) > 0 ==> P.HoldsExactly(p, samples))
            && (P.Count(samples) == 0 ==> P.Size(p) == 0)
  {
    hide P.EndTime;
  }

  lemma PacketIsOfRecord(content: Content)
    ensures PacketOf(content).Ok? <==> CanBeUnpacked(content)
    ensures PacketOf(content).Ok? ==> IsPacketOf(PacketOf(content).value, content)
  {
    hide Id.ConvertString, Id.IsBlank, P.Canonical, P.HoldsExactly, ToDouble, DataOf, IdentifierOf, PlainNames, NamedBy;
    hide GoodNames, Id.NameOf, Spacing;
    if content.names.Some? {
      var names := content.names.value;
      GoodNamesAreNotBlank(names);
      if PlainNames(names) {
        PlainNamesAreKept(names);
        NameReads(IdentifierOf(names), names);
      }
      StartTimeIsRounded(content.starttime);
      CanonicalHolds(Some(IdentifierOf(names)), ToDouble(content.starttime), content.samprate, content.samples);
    }
  }

  /** The calls made for one record leave exactly its identifier, rate, start time and samples. */
  lemma StateOfRecord(id: Id.Fields, rate: real, start: int, samples: P.Samples)
    requires Id.Complete(id) && rate > 0.0
    ensures var calls := [P.SetIdentifier(id), P.SetSamplingRate(rate), P.SetStartTime(start)];
            && P.StateAfter(calls) == P.Canonical(Some(id), start, rate, None)
            && (P.Count(samples) > 0 ==>
                 P.StateAfter(calls + [P.SetData(samples)]) == P.Canonical(Some(id), start, rate, Some(samples)))
  {
    var first: seq<P.Operation> := [P.SetIdentifier(id)];
    var second := first + [P.SetSamplingRate(rate)];
    var third := second + [P.SetStartTime(start)];
    assert third == [P.SetIdentifier(id), P.SetSamplingRate(rate), P.SetStartTime(start)];
    assert third[..2] == second && second[..1] == first && first[..0] == [];
    assert P.LastIdentifier(first) == Some(id) && P.LastData(first) == None;
    assert P.LastIdentifier(second) == Some(id) && P.LastRate(second) == rate && P.LastData(second) == None;
    assert P.LastIdentifier(third) == Some(id) && P.LastRate(third) == rate && P.LastData(third) == None;
    P.StateAfterSetData(third, samples);
  }

  method MakeIdentifier(names: Names) returns (r: Result<Id.Fields>)
    ensures r == if GoodNames(names) then Ok(IdentifierOf(names)) else Err(InvalidArgument)
    ensures PlainNames(names) ==> r.Ok? && NamedBy(r.value, names)
    ensures r.Ok? ==> Id.Complete(r.value)
  {
    if PlainNames(names) {
      PlainNamesAreKept(names);
    }
    var identifier := new Id.StreamIdentifier();
    var network := identifier.SetNetwork(names.network);
    if network.Err? {
      return Err(InvalidArgument);
    }
    var station := identifier.SetStation(names.station);
    if station.Err? {
      return Err(InvalidArgument);
    }
    var channel := identifier.SetChannel(names.channel);
    if channel.Err? {
      return Err(InvalidArgument);
    }
    if names.location == "" {
      identifier.SetLocationCode("--");
    } else {
      identifier.SetLocationCode(names.location);
    }
    return Ok(identifier.GetFields());
  }

  method UnpackRecord(content: Content) returns (r: Result<P.State>)
    ensures r == PacketOf(content)
    ensures r.Ok? <==> CanBeUnpacked(content)
    ensures r.Ok? ==> IsPacketOf(r.value, content)
  {
    PacketIsOfRecord(content);
    hide CanBeUnpacked, IsPacketOf, PlainNames, NamedBy, IdentifierOf, ToDouble, P.EndTime;
    var dataPacket := new P.Packet();
    if content.names.None? {
      return Err(RuntimeError);
    }
    var identifier := MakeIdentifier(content.names.value);
    if identifier.Err? {
      return Err(InvalidArgument);
    }
    var named := dataPacket.SetStreamIdentifier(identifier.value);
    if named.Err? {
      return Err(InvalidArgument);
    }
    var rated := dataPacket.SetSamplingRate(content.samprate);
    if rated.Err? {
      return Err(InvalidArgument);
    }
    dataPacket.SetStartTime(ToDouble(content.starttime));
    StateOfRecord(identifier.value, content.samprate, ToDouble(content.starttime), content.samples);
    if P.Count(content.samples) > 0 {
      if content.samples.Chars? {
        return Err(RuntimeError);
      }
      dataPacket.SetData(content.samples);
    }
    return Ok(dataPacket.GetState());
  }

  // One buffer.

  /** What one round of the loop makes of the bytes that remain. */
  function Unpack(parse: Parser, bytes: string): Outcome<P.State> {
    match parse(bytes)
    case NotParsed => Failed(RuntimeError)
    case Parsed(reclen, content) =>
      match PacketOf(content)
      case Ok(packet) => Record(reclen, packet)
      case Err(error) => Failed(error)
  }

  function Unpacking(parse: Parser): (unpack: Unpacker<P.State>)
    requires SoundParser(parse)
    ensures Sound(unpack)
  {
    bytes => Unpack(parse, bytes)
  }

  /** The outcome for a whole buffer. */
  function PacketsIn(parse: Parser, minRecLen: nat, buffer: string): Result<seq<P.State>>
    requires SoundParser(parse)
  {
    Walk(Unpacking(parse), minRecLen, buffer)
  }

  /** A record that always parses to an acceptable content encodes the packet of that content. */
  lemma RecordEncodesPacket(parse: Parser, record: string, content: Content)
    requires SoundParser(parse) && PacketOf(content).Ok?
    requires forall rest :: parse(record + rest) == Parsed(|record|, content)
    ensures Encodes(Unpacking(parse), record, PacketOf(content).value)
  {
    hide PacketOf;
    forall rest ensures Unpacking(parse)(record + rest) == Record(|record|, PacketOf(content).value) {
      assert parse(record + rest) == Parsed(|record|, content);
    }
  }

  lemma PacketsUnfold(parse: Parser, minRecLen: nat, bytes: string)
    requires SoundParser(parse)
    ensures |bytes| <= minRecLen ==> PacketsIn(parse, minRecLen, bytes) == Ok([])
    ensures |bytes| > minRecLen ==>
              PacketsIn(parse, minRecLen, bytes) ==
              match Unpack(parse, bytes)
              case Failed(error) => Err(error)
              case Record(reclen, packet) => Prepend([packet], PacketsIn(parse, minRecLen, bytes[reclen..]))
  {
  }

  /** The loop never reads beyond the buffer, its unsigned difference never wraps, and it ends. */
  method MiniSEEDToDataPackets(parse: Parser, minRecLen: nat, buffer: string) returns (r: Result<seq<P.State>>)
    requires SoundParser(parse) && |buffer| < TWO_TO_THE_31
    ensures r == PacketsIn(parse, minRecLen, buffer)
  {
    hide PacketsIn, PacketOf;
    var dataPackets: seq<P.State> := [];
    var bufferLength := |buffer|;
    var offset := 0;
    assert buffer[0..] == buffer;
    PrependAll([], [], PacketsIn(parse, minRecLen, buffer));
    while (bufferLength - offset) % TWO_TO_THE_64 > minRecLen
      invariant 0 <= offset <= bufferLength
      invariant PacketsIn(parse, minRecLen, buffer) ==
                Prepend(dataPackets, PacketsIn(parse, minRecLen, buffer[offset..]))
      decreases bufferLength - offset
    {
      var rest := buffer[offset..];
      PacketsUnfold(parse, minRecLen, rest);
      match parse(rest) {
        case Parsed(reclen, content) =>
          var dataPacket := UnpackRecord(content);
          if dataPacket.Err? {
            return Err(dataPacket.error);
          }
          assert rest[reclen..] == buffer[offset + reclen..];
          PrependAll(dataPackets, [dataPacket.value], PacketsIn(parse, minRecLen, rest[reclen..]));
          dataPackets := dataPackets + [dataPacket.value];
          offset := offset + reclen;
        case NotParsed =>
          return Err(RuntimeError);
      }
    }
    PacketsUnfold(parse, minRecLen, buffer[offset..]);
    PrependAll(dataPackets, [], Ok([]));
    return Ok(dataPackets);
  }

  /**
   * The packets of a buffer that unpacks are those of its records: the buffer is
   * cut into records, each packet is the one of the contents parsed at its record,
   * and at most the minimum number of bytes is left.
   */
  lemma PacketsAreOfRecords(parse: Parser, minRecLen: nat, buffer: string) returns (records: seq<string>, tail: string)
    requires SoundParser(parse) && PacketsIn(parse, minRecLen, buffer).Ok?
    ensures buffer == Flatten(records) + tail && |tail| <= minRecLen
    ensures var packets := PacketsIn(parse, minRecLen, buffer).value;
            && |packets| == |records|
            && forall k :: 0 <= k < |records| ==>
                 var parsed := parse(Flatten(records[k..]) + tail);
                 parsed.Parsed? && parsed.reclen == |records[k]| > 0 && IsPacketOf(packets[k], parsed.content)
  {
    hide PacketOf, IsPacketOf;
    records, tail := WalkPartitions(Unpacking(parse), minRecLen, buffer);
    var packets := PacketsIn(parse, minRecLen, buffer).value;
    forall k | 0 <= k < |records|
      ensures var parsed := parse(Flatten(records[k..]) + tail);
              parsed.Parsed? && parsed.reclen == |records[k]| > 0 && IsPacketOf(packets[k], parsed.content)
    {
      var bytes := Flatten(records[k..]) + tail;
      assert CutAt(Unpacking(parse), records, tail, packets, k);
      assert Unpack(parse, bytes) == Record(|records[k]|, packets[k]);
      PacketIsOfRecord(parse(bytes).content);
    }
  }
}
