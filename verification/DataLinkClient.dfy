/**
 * The DataLink writer: its connection handle, reconnection, and the loop that
 * converts and writes packets until it is stopped or gives up.  libdali is an
 * oracle that also keeps a ledger of the handles it gave out.
 */
module DataLinkClient {
  import opened Common
  import opened WriterMetrics
  import P = Packet
  import D = DataLinkPackets
  import Id = StreamIdentifier

  const MAX_CONSECUTIVE_FAILURES := 32

  /** `mReconnectInterval.size()` */
  const RECONNECT_ATTEMPTS := 4

  /** libdali's connection structure; a link of -1 means not connected. */
  class Dlcp {
    var link: int

    constructor ()
      ensures link == -1
    {
      link := -1;
    }
  }

  /** The arguments of one `dl_write`. */
  datatype Write = Write(stream: string, record: D.DataLinkPacket)

  /** A return code, and the link afterwards. */
  datatype Outcome = Outcome(code: int, link: int)

  /**
   * The library as one client sees it.  Its answers are arbitrary functions of
   * how often it was asked; a handle may only be used between `dl_newdlcp` and
   * `dl_freedlcp`.
   */
  class Dali {
    const connectOutcome: nat -> Outcome
    const writeOutcome: nat -> Outcome
    var connects: nat
    var writes: nat
    ghost var live: set<Dlcp>
    ghost var created: nat
    ghost var freed: nat
    ghost var attempted: seq<Write>
    ghost var succeeded: seq<bool>

    /** The ledger: allocations minus frees are the live handles, and every write is on record. */
    ghost predicate Balanced()
      reads this
    {
      && created == freed + |live|
      && |attempted| == |succeeded| == writes
      && forall k :: 0 <= k < writes ==> (succeeded[k] <==> writeOutcome(k).code >= 0)
    }

    constructor (connectOutcome: nat -> Outcome, writeOutcome: nat -> Outcome)
      ensures Balanced() && live == {} && created == 0 && connects == 0 && writes == 0
    {
      this.connectOutcome, this.writeOutcome := connectOutcome, writeOutcome;
      connects, writes := 0, 0;
      live, created, freed, attempted, succeeded := {}, 0, 0, [], [];
    }

    method NewDlcp() returns (handle: Dlcp)
      requires Balanced()
      modifies this`live, this`created
      ensures Balanced() && fresh(handle) && handle.link == -1
      ensures live == old(live) + {handle} && created == old(created) + 1
    {
      handle := new Dlcp();
      live, created := live + {handle}, created + 1;
    }

    method FreeDlcp(handle: Dlcp)
      requires Balanced() && handle in live
      modifies this`live, this`freed
      ensures Balanced() && live == old(live) - {handle} && freed == old(freed) + 1
    {
      live, freed := live - {handle}, freed + 1;
    }

    method Connect(handle: Dlcp) returns (code: int)
      requires Balanced() && handle in live
      modifies this`connects, handle
      ensures Balanced() && connects == old(connects) + 1
      ensures code == connectOutcome(old(connects)).code && handle.link == connectOutcome(old(connects)).link
    {
      code, handle.link := connectOutcome(connects).code, connectOutcome(connects).link;
      connects := connects + 1;
    }

    method Disconnect(handle: Dlcp)
      requires handle in live
      modifies handle
      ensures handle.link == -1
    {
      handle.link := -1;
    }

    method WriteRecord(handle: Dlcp, w: Write) returns (code: int)
      requires Balanced() && handle in live
      modifies this`writes, this`attempted, this`succeeded, handle
      ensures Balanced() && code == writeOutcome(old(writes)).code
      ensures attempted == old(attempted) + [w] && succeeded == old(succeeded) + [code >= 0]
    {
      code, handle.link := writeOutcome(writes).code, writeOutcome(writes).link;
      attempted, succeeded := attempted + [w], succeeded + [code >= 0];
      writes := writes + 1;
    }
  }

  // What should be written.

  /** The writer's options, and libmseed as an oracle per packet. */
  datatype Settings = Settings(
    maxMiniSEEDRecordSize: int, writeMiniSEED3: bool, flushPackets: bool,
    sidLength: P.State -> int, pack: P.State -> D.Packer)

  function ConvertedBy(settings: Settings, packet: P.State): Result<seq<D.DataLinkPacket>> {
    D.Converted(packet, D.HeaderOf(packet, settings.maxMiniSEEDRecordSize, settings.writeMiniSEED3, D.Uncompressed),
                settings.flushPackets, settings.sidLength(packet), settings.pack(packet))
  }

  /** The packet can be converted and has a DataLink name. */
  predicate Sendable(settings: Settings, packet: P.State) {
    ConvertedBy(settings, packet).Ok? && packet.identifier.Some? && Id.Complete(packet.identifier.value)
  }

  /** One write for each record that is not empty. */
  function WritesOfRecords(stream: string, records: seq<D.DataLinkPacket>): seq<Write> {
    if records == [] then []
    else
      var last := records[|records| - 1];
      WritesOfRecords(stream, records[..|records| - 1]) + if last.data == "" then [] else [Write(stream, last)]
  }

  function WritesOf(settings: Settings, packet: P.State): seq<Write> {
    if Sendable(settings, packet)
    then WritesOfRecords(Id.DataLinkName(packet.identifier.value), ConvertedBy(settings, packet).value)
    else []
  }

  // What the writes are, record by record.

  /** The k-th write carries the record at `positions[k]`, and these are all the records that are not empty. */
  ghost predicate InOrder(positions: seq<nat>, sent: seq<Write>, stream: string, records: seq<D.DataLinkPacket>) {
    && |positions| == |sent|
    && (forall j, k :: 0 <= j < k < |positions| ==> positions[j] < positions[k])
    && (forall k :: 0 <= k < |positions| ==>
          positions[k] < |records| && records[positions[k]].data != ""
          && sent[k] == Write(stream, records[positions[k]]))
    && (forall i :: 0 <= i < |records| && records[i].data != "" ==> i in positions)
  }

  lemma InOrderExtends(positions: seq<nat>, sent: seq<Write>, stream: string, records: seq<D.DataLinkPacket>)
    requires records != [] && InOrder(positions, sent, stream, records[..|records| - 1])
    ensures var last := records[|records| - 1];
            if last.data == "" then InOrder(positions, sent, stream, records)
            else InOrder(positions + [|records| - 1], sent + [Write(stream, last)], stream, records)
  {
    var init, last := records[..|records| - 1], records[|records| - 1];
    assert forall i :: 0 <= i < |init| ==> records[i] == init[i];
    if last.data != "" {
      assert (positions + [|records| - 1])[|positions|] == |records| - 1;
      forall i | 0 <= i < |records| && records[i].data != "" ensures i in positions + [|records| - 1] {
        if i < |init| {
          assert i in positions;
        }
      }
    }
  }

  lemma {:induction false} RecordsInOrder(stream: string, records: seq<D.DataLinkPacket>) returns (positions: seq<nat>)
    ensures InOrder(positions, WritesOfRecords(stream, records), stream, records)
  {
    hide InOrder;
    if records == [] {
      positions := [];
      NothingInOrder(stream);
    } else {
      var before := WritesOfRecords(stream, records[..|records| - 1]);
      positions := RecordsInOrder(stream, records[..|records| - 1]);
      InOrderExtends(positions, before, stream, records);
      if records[|records| - 1].data == "" {
        assert before + [] == before;
      } else {
        positions := positions + [|records| - 1];
      }
    }
  }

  lemma NothingInOrder(stream: string)
    ensures InOrder([], [], stream, [])
  {
  }

  lemma SomethingToWrite(stream: string, records: seq<D.DataLinkPacket>)
    ensures (exists r :: r in records && r.data != "") ==> WritesOfRecords(stream, records) != []
  {
    var positions := RecordsInOrder(stream, records);
    if r :| r in records && r.data != "" {
      var i :| 0 <= i < |records| && records[i] == r;
      assert i in positions;
    }
  }

  /** No writes for a packet that cannot be converted or named; otherwise one for each record that is not empty. */
  ghost predicate MustWrite(settings: Settings, packet: P.State, sent: seq<Write>) {
    match (ConvertedBy(settings, packet), packet.identifier)
    case (Ok(records), Some(id)) =>
      if id.network != "" && id.station != "" && id.channel != "" && id.hasLocationCode then
        exists positions ::
          InOrder(positions, sent,
                  id.network + "_" + id.station + "_" + id.locationCode + "_" + id.channel + "/MSEED", records)
      else
        sent == []
    case _ => sent == []
  }

  lemma WritesAreRequired(settings: Settings, packet: P.State)
    ensures MustWrite(settings, packet, WritesOf(settings, packet))
  {
    if Sendable(settings, packet) {
      var positions := RecordsInOrder(Id.DataLinkName(packet.identifier.value), ConvertedBy(settings, packet).value);
    }
  }

  /** What is written are the records of one packing pass made with the writer's own options. */
  lemma ConversionUsesSettings(settings: Settings, packet: P.State)
    ensures var r := ConvertedBy(settings, packet);
            r.Ok? ==> exists header :: D.IsConversion(
              r.value, header, packet, settings.maxMiniSEEDRecordSize, settings.writeMiniSEED3, D.Uncompressed,
              settings.flushPackets, settings.pack(packet))
  {
    D.ConvertedIsConversion(packet, settings.maxMiniSEEDRecordSize, settings.writeMiniSEED3, D.Uncompressed,
                            settings.flushPackets, settings.sidLength(packet), settings.pack(packet));
  }

  /** A round of the loop finds a packet in the queue, or nothing. */
  type Rounds = seq<Option<P.State>>

  function RoundWrites(settings: Settings, round: Option<P.State>): seq<Write> {
    if round.Some? then WritesOf(settings, round.value) else []
  }

  function RoundInvalid(settings: Settings, round: Option<P.State>): nat {
    if round.Some? && !Sendable(settings, round.value) then 1 else 0
  }

  function AllWrites(settings: Settings, rounds: Rounds): seq<Write> {
    if rounds == [] then []
    else AllWrites(settings, rounds[..|rounds| - 1]) + RoundWrites(settings, rounds[|rounds| - 1])
  }

  function InvalidCount(settings: Settings, rounds: Rounds): nat {
    if rounds == [] then 0
    else InvalidCount(settings, rounds[..|rounds| - 1]) + RoundInvalid(settings, rounds[|rounds| - 1])
  }

  function Concat(parts: seq<seq<Write>>): seq<Write> {
    if parts == [] then [] else Concat(parts[..|parts| - 1]) + parts[|parts| - 1]
  }

  /** The writes fall into one part for each round, each what its packet requires. */
  ghost predicate PartsOf(parts: seq<seq<Write>>, settings: Settings, rounds: Rounds) {
    && |parts| == |rounds|
    && forall k :: 0 <= k < |rounds| ==>
         match rounds[k]
         case Some(packet) => MustWrite(settings, packet, parts[k])
         case None => parts[k] == []
  }

  lemma {:induction false} AllWritesAreRequired(settings: Settings, rounds: Rounds) returns (parts: seq<seq<Write>>)
    ensures PartsOf(parts, settings, rounds) && AllWrites(settings, rounds) == Concat(parts)
  {
    hide MustWrite, WritesOf;
    parts := [];
    if rounds != [] {
      var init, last := rounds[..|rounds| - 1], rounds[|rounds| - 1];
      var before := AllWritesAreRequired(settings, init);
      parts := before + [RoundWrites(settings, last)];
      assert parts[..|parts| - 1] == before;
      if last.Some? {
        WritesAreRequired(settings, last.value);
      }
      assert forall k :: 0 <= k < |init| ==> rounds[k] == init[k] && parts[k] == before[k];
    }
  }

  /** The packet cannot be converted, or lacks a part of its name. */
  predicate IsInvalid(settings: Settings, round: Option<P.State>) {
    && round.Some?
    && (|| ConvertedBy(settings, round.value).Err?
        || round.value.identifier.None?
        || round.value.identifier.value.network == "" || round.value.identifier.value.station == ""
        || round.value.identifier.value.channel == "" || !round.value.identifier.value.hasLocationCode)
  }

  /** The invalid packets are counted one by one. */
  lemma {:induction false} InvalidPacketsAreCounted(settings: Settings, rounds: Rounds)
    ensures InvalidCount(settings, rounds) == |set k | 0 <= k < |rounds| && IsInvalid(settings, rounds[k])|
  {
    if rounds != [] {
      var init, n := rounds[..|rounds| - 1], |rounds| - 1;
      InvalidPacketsAreCounted(settings, init);
      var before := set k | 0 <= k < |init| && IsInvalid(settings, init[k]);
      var after := set k | 0 <= k < |rounds| && IsInvalid(settings, rounds[k]);
      assert after == before + if IsInvalid(settings, rounds[n]) then {n} else {};
    }
  }

  lemma AnotherRound(settings: Settings, rounds: Rounds, n: nat)
    requires n < |rounds|
    ensures AllWrites(settings, rounds[..n + 1]) == AllWrites(settings, rounds[..n]) + RoundWrites(settings, rounds[n])
    ensures InvalidCount(settings, rounds[..n + 1]) ==
            InvalidCount(settings, rounds[..n]) + RoundInvalid(settings, rounds[n])
  {
    assert rounds[..n + 1][..n] == rounds[..n];
  }

  lemma AnotherRecord(stream: string, records: seq<D.DataLinkPacket>, n: nat)
    requires n < |records|
    ensures WritesOfRecords(stream, records[..n + 1]) ==
            WritesOfRecords(stream, records[..n]) + if records[n].data == "" then [] else [Write(stream, records[n])]
  {
    assert records[..n + 1][..n] == records[..n];
  }

  lemma NothingToWrite(settings: Settings, rounds: Rounds, stream: string, records: seq<D.DataLinkPacket>)
    ensures WritesOfRecords(stream, records[..0]) == []
    ensures AllWrites(settings, rounds[..0]) == []
    ensures InvalidCount(settings, rounds[..0]) == 0
  {
  }

  lemma {:induction false} WritesArePrefix(stream: string, records: seq<D.DataLinkPacket>, n: nat)
    requires n <= |records|
    ensures WritesOfRecords(stream, records[..n]) <= WritesOfRecords(stream, records)
    decreases |records| - n
  {
    if n == |records| {
      assert records[..n] == records;
    } else {
      AnotherRecord(stream, records, n);
      WritesArePrefix(stream, records, n + 1);
    }
  }

  // The failure limit.

  /** How many of the latest outcomes are failures in a row. */
  function TrailingFailures(outcomes: seq<bool>): nat {
    if outcomes == [] || outcomes[|outcomes| - 1] then 0
    else TrailingFailures(outcomes[..|outcomes| - 1]) + 1
  }

  /** At least `n` exactly when the last `n` outcomes all failed. */
  lemma {:induction false} TrailingFailuresIsRun(outcomes: seq<bool>, n: nat)
    ensures TrailingFailures(outcomes) >= n <==>
            n <= |outcomes| && forall i :: |outcomes| - n <= i < |outcomes| ==> !outcomes[i]
  {
    if outcomes != [] && !outcomes[|outcomes| - 1] && n > 0 {
      var init := outcomes[..|outcomes| - 1];
      TrailingFailuresIsRun(init, n - 1);
      assert forall i :: 0 <= i < |init| ==> init[i] == outcomes[i];
    }
  }

  /** The limit has not been reached at any time. */
  ghost predicate BelowLimit(outcomes: seq<bool>) {
    forall k :: 0 <= k <= |outcomes| ==> TrailingFailures(outcomes[..k]) < MAX_CONSECUTIVE_FAILURES
  }

  /** The last outcome is the first at which the limit was reached. */
  ghost predicate ReachesLimit(outcomes: seq<bool>) {
    && outcomes != [] && BelowLimit(outcomes[..|outcomes| - 1])
    && TrailingFailures(outcomes) >= MAX_CONSECUTIVE_FAILURES
  }

  lemma BelowLimitNow(outcomes: seq<bool>)
    requires BelowLimit(outcomes)
    ensures TrailingFailures(outcomes) < MAX_CONSECUTIVE_FAILURES
  {
    assert outcomes[..|outcomes|] == outcomes;
  }

  lemma NoOutcomes()
    ensures BelowLimit([]) && TrailingFailures([]) == 0
  {
  }

  lemma AnotherOutcome(outcomes: seq<bool>, ok: bool)
    requires BelowLimit(outcomes)
    ensures TrailingFailures(outcomes + [ok]) == if ok then 0 else TrailingFailures(outcomes) + 1
    ensures if TrailingFailures(outcomes + [ok]) < MAX_CONSECUTIVE_FAILURES
            then BelowLimit(outcomes + [ok]) else ReachesLimit(outcomes + [ok])
  {
    var more := outcomes + [ok];
    assert more[..|outcomes|] == outcomes && more[..|more|] == more;
    assert forall k :: 0 <= k <= |outcomes| ==> more[..k] == outcomes[..k];
  }

  lemma LimitIsDecided(outcomes: seq<bool>)
    ensures !(BelowLimit(outcomes) && ReachesLimit(outcomes))
  {
    assert outcomes[..|outcomes|] == outcomes;
  }

  /** The 32 outcomes before position `end` are all failures. */
  ghost predicate FailedRun(outcomes: seq<bool>, end: nat)
    requires 32 <= end <= |outcomes|
  {
    forall i :: end - 32 <= i < end ==> !outcomes[i]
  }

  /** The limit is reached exactly when some 32 successive writes all failed. */
  lemma LimitIsThirtyTwoInARow(outcomes: seq<bool>)
    ensures BelowLimit(outcomes) <==>
            !exists end :: 32 <= end <= |outcomes| && FailedRun(outcomes, end)
  {
    forall k | 0 <= k <= |outcomes|
      ensures TrailingFailures(outcomes[..k]) < MAX_CONSECUTIVE_FAILURES <==>
              !(k >= 32 && FailedRun(outcomes, k))
    {
      TrailingFailuresIsRun(outcomes[..k], MAX_CONSECUTIVE_FAILURES);
    }
  }

  /** The writer gives up at the first moment at which the 32 latest writes have all failed. */
  lemma LimitIsReachedWhen(outcomes: seq<bool>)
    ensures ReachesLimit(outcomes) <==>
            && |outcomes| >= 32 && FailedRun(outcomes, |outcomes|)
            && !exists end :: 32 <= end < |outcomes| && FailedRun(outcomes, end)
  {
    if outcomes != [] {
      var init := outcomes[..|outcomes| - 1];
      LimitIsThirtyTwoInARow(init);
      TrailingFailuresIsRun(outcomes, MAX_CONSECUTIVE_FAILURES);
      forall end | 32 <= end < |outcomes|
        ensures FailedRun(init, end) <==> FailedRun(outcomes, end)
      {
        assert forall i :: 0 <= i < end ==> init[i] == outcomes[i];
      }
    }
  }

  // The client.

  /** How `runWriter` ends; the last two are exceptions. */
  datatype End = Stopped | CouldNotReconnect | TooManyFailures

  /** The writes the library saw with their outcomes, the outcomes counted, and the packets rejected. */
  datatype Log = Log(attempted: seq<Write>, succeeded: seq<bool>, counted: seq<bool>, rejected: nat)

  /** Each write is on record and counted with its outcome, each invalid packet is counted. */
  function Extended(log: Log, sent: seq<Write>, run: seq<bool>, invalid: nat): Log {
    Log(log.attempted + sent, log.succeeded + run, log.counted + run, log.rejected + invalid)
  }

  lemma ExtendedTwice(log: Log, sent: seq<Write>, run: seq<bool>, invalid: nat,
                      sent': seq<Write>, run': seq<bool>, invalid': nat)
    ensures Extended(Extended(log, sent, run, invalid), sent', run', invalid') ==
            Extended(log, sent + sent', run + run', invalid + invalid')
  {
    assert log.attempted + sent + sent' == log.attempted + (sent + sent');
    assert log.succeeded + run + run' == log.succeeded + (run + run');
    assert log.counted + run + run' == log.counted + (run + run');
  }

  lemma ExtendedByNothing(log: Log)
    ensures Extended(log, [], [], 0) == log
  {
  }

  class DataLinkClient {
    const settings: Settings
    const dali: Dali
    const mMetrics: WriterMetrics
    /** Which of the writers that share the counters this one is. */
    const index: nat
    var mDataLinkClient: Dlcp?

    /** The only handle not freed yet is the one the pointer holds. */
    ghost predicate Valid()
      reads this, dali, mMetrics
    {
      && dali.Balanced() && mMetrics.Valid() && index < mMetrics.clients
      && dali.live == if mDataLinkClient == null then {} else {mDataLinkClient}
    }

    constructor (settings: Settings, dali: Dali, metrics: WriterMetrics, index: nat)
      requires dali.Balanced() && dali.live == {} && metrics.Valid() && index < metrics.clients
      ensures Valid() && mDataLinkClient == null
      ensures this.settings == settings && this.dali == dali && mMetrics == metrics && this.index == index
    {
      this.settings, this.dali, mMetrics, this.index := settings, dali, metrics, index;
      mDataLinkClient := null;
    }

    predicate IsConnected()
      reads this, mDataLinkClient
    {
      mDataLinkClient != null && mDataLinkClient.link != -1
    }

    /** The pointer holds the handle it held before the call, a newer one, or none. */
    twostate predicate SameOrNew()
      reads this
    {
      mDataLinkClient == null || mDataLinkClient == old(mDataLinkClient) || fresh(mDataLinkClient)
    }

    method Disconnect()
      requires Valid()
      modifies mDataLinkClient
      ensures Valid() && !IsConnected()
    {
      if IsConnected() {
        dali.Disconnect(mDataLinkClient);
      }
    }

    method DestroyDataLinkClient()
      requires Valid()
      modifies this, mDataLinkClient, dali
      ensures Valid() && mDataLinkClient == null && dali.created == dali.freed
      ensures dali.attempted == old(dali.attempted) && dali.succeeded == old(dali.succeeded)
    {
      Disconnect();
      if mDataLinkClient != null {
        dali.FreeDlcp(mDataLinkClient);
      }
      mDataLinkClient := null;
    }

    /** A new handle if there is none; after a failed attempt the handle is gone. */
    method Connect() returns (r: Result<()>)
      requires Valid()
      modifies this, mDataLinkClient, dali
      ensures Valid() && SameOrNew() && dali.connects == old(dali.connects) + 1
      ensures dali.attempted == old(dali.attempted) && dali.succeeded == old(dali.succeeded)
      ensures r.Ok? <==> dali.connectOutcome(old(dali.connects)).code >= 0
      ensures r.Ok? ==> mDataLinkClient != null && mDataLinkClient.link == dali.connectOutcome(old(dali.connects)).link
      ensures r.Err? ==> mDataLinkClient == null
    {
      if mDataLinkClient == null {
        mDataLinkClient := dali.NewDlcp();
      }
      Disconnect();
      var code := dali.Connect(mDataLinkClient);
      if code < 0 {
        dali.FreeDlcp(mDataLinkClient);
        mDataLinkClient := null;
        return Err(RuntimeError);
      }
      return Ok(());
    }

    /** The attempts of one episode, from the n-th `dl_connect` on: failures up to the last. */
    ghost predicate Episode(n: nat, attempts: nat) {
      && 1 <= attempts <= RECONNECT_ATTEMPTS
      && (forall j :: n <= j < n + attempts - 1 ==> dali.connectOutcome(j).code < 0)
      && (attempts < RECONNECT_ATTEMPTS ==> dali.connectOutcome(n + attempts - 1).code >= 0)
    }

    /** At most four attempts, the first success ends them, and the episode ends connected or throwing. */
    method Reconnect() returns (r: Result<()>)
      requires Valid() && !IsConnected()
      modifies this, mDataLinkClient, dali
      ensures Valid() && SameOrNew() && (r.Ok? <==> IsConnected())
      ensures dali.attempted == old(dali.attempted) && dali.succeeded == old(dali.succeeded)
      ensures old(dali.connects) < dali.connects <= old(dali.connects) + RECONNECT_ATTEMPTS
      ensures Episode(old(dali.connects), dali.connects - old(dali.connects))
      ensures var last := dali.connectOutcome(dali.connects - 1); r.Ok? <==> last.code >= 0 && last.link != -1
      ensures dali.connects <= old(dali.connects) + 4
      ensures dali.connectOutcome(dali.connects - 1).code < 0 ==> dali.connects == old(dali.connects) + 4
    {
      var k := 0;
      while k < RECONNECT_ATTEMPTS
        invariant Valid() && SameOrNew() && 0 <= k <= RECONNECT_ATTEMPTS
        invariant dali.connects == old(dali.connects) + k
        invariant forall j :: old(dali.connects) <= j < dali.connects ==> dali.connectOutcome(j).code < 0
        invariant dali.attempted == old(dali.attempted) && dali.succeeded == old(dali.succeeded)
        invariant k > 0 ==> mDataLinkClient == null
        invariant !IsConnected()
      {
        var connected := Connect();
        if connected.Ok? {
          break;
        }
        k := k + 1;
      }
      if !IsConnected() {
        return Err(RuntimeError);
      }
      return Ok(());
    }

    /** The library's record, and this writer's own history behind the shared counters. */
    ghost function GetLog(): Log
      requires mMetrics.Valid() && index < mMetrics.clients
      reads this, dali, mMetrics
    {
      Log(dali.attempted, dali.succeeded, mMetrics.shared.outcomes[index], mMetrics.shared.rejected[index])
    }

    /** One `dl_write` and its bookkeeping; `sent` and `run` are the record so far. */
    method WriteOne(w: Write, consecutiveWriteFailures: nat, ghost run: seq<bool>)
        returns (failures: nat, ghost ok: bool)
      requires Valid() && mDataLinkClient != null
      requires consecutiveWriteFailures == TrailingFailures(run) && BelowLimit(run)
      modifies mDataLinkClient, dali, mMetrics
      ensures Valid() && dali.connects == old(dali.connects) && GetLog() == Extended(old(GetLog()), [w], [ok], 0)
      ensures failures == TrailingFailures(run + [ok])
      ensures if failures < MAX_CONSECUTIVE_FAILURES then BelowLimit(run + [ok]) else ReachesLimit(run + [ok])
    {
      var returnCode := dali.WriteRecord(mDataLinkClient, w);
      ok := returnCode >= 0;
      failures := consecutiveWriteFailures;
      if returnCode < 0 {
        failures := failures + 1;
        mMetrics.IncrementFailedPacketsSent(index);
      } else {
        mMetrics.IncrementPacketsWritten(index);
        failures := 0;
      }
      AnotherOutcome(run, ok);
    }

    /** The loop over the records of one packet, until one too many failure. */
    method WriteRecords(stream: string, records: seq<D.DataLinkPacket>, consecutiveWriteFailures: nat,
                        ghost before: seq<bool>)
        returns (failures: nat, ghost sent: seq<Write>, ghost run: seq<bool>)
      requires Valid() && mDataLinkClient != null
      requires consecutiveWriteFailures == TrailingFailures(before) && BelowLimit(before)
      modifies mDataLinkClient, dali, mMetrics
      ensures Valid() && dali.connects == old(dali.connects)
      ensures |sent| == |run| && GetLog() == Extended(old(GetLog()), sent, run, 0)
      ensures failures == TrailingFailures(before + run)
      ensures sent <= WritesOfRecords(stream, records)
      ensures if failures < MAX_CONSECUTIVE_FAILURES
              then BelowLimit(before + run) && sent == WritesOfRecords(stream, records)
              else ReachesLimit(before + run) && !IsConnected()
    {
      hide WritesOfRecords, TrailingFailures, BelowLimit, ReachesLimit, Extended, Run;
      failures, sent, run := consecutiveWriteFailures, [], [];
      BelowLimitNow(before);
      NoOutcomes();
      ExtendedByNothing(GetLog());
      NothingToWrite(settings, [], stream, records);
      assert before + run == before;
      for i := 0 to |records|
        invariant Valid() && dali.connects == old(dali.connects)
        invariant |sent| == |run| && GetLog() == Extended(old(GetLog()), sent, run, 0)
        invariant failures == TrailingFailures(before + run) < MAX_CONSECUTIVE_FAILURES && BelowLimit(before + run)
        invariant sent == WritesOfRecords(stream, records[..i])
      {
        AnotherRecord(stream, records, i);
        if records[i].data == "" {
          continue;
        }
        ghost var ok;
        failures, ok := WriteOne(Write(stream, records[i]), failures, before + run);
        assert before + run + [ok] == before + (run + [ok]);
        ExtendedTwice(old(GetLog()), sent, run, 0, [Write(stream, records[i])], [ok], 0);
        sent, run := sent + [Write(stream, records[i])], run + [ok];
        if failures >= MAX_CONSECUTIVE_FAILURES {
          WritesArePrefix(stream, records, i + 1);
          Disconnect();
          return;
        }
      }
      assert records[..|records|] == records;
    }

    /** A popped packet is either counted as invalid or offered to the server record by record. */
    method SendPacket(packet: P.State, consecutiveWriteFailures: nat, ghost before: seq<bool>)
        returns (failures: nat, ghost sent: seq<Write>, ghost run: seq<bool>)
      requires Valid() && mDataLinkClient != null
      requires consecutiveWriteFailures == TrailingFailures(before) && BelowLimit(before)
      modifies mDataLinkClient, dali, mMetrics
      ensures Valid() && dali.connects == old(dali.connects)
      ensures |sent| == |run|
      ensures GetLog() == Extended(old(GetLog()), sent, run, if Sendable(settings, packet) then 0 else 1)
      ensures failures == TrailingFailures(before + run)
      ensures sent <= WritesOf(settings, packet)
      ensures failures < MAX_CONSECUTIVE_FAILURES ==> MustWrite(settings, packet, sent)
      ensures !IsInvalid(settings, Some(packet))
              && (exists r :: r in ConvertedBy(settings, packet).value && r.data != "")
              ==> |dali.attempted| > |old(dali.attempted)|
      ensures dali.attempted == old(dali.attempted) + sent && dali.succeeded == old(dali.succeeded) + run
      ensures if failures < MAX_CONSECUTIVE_FAILURES
              then BelowLimit(before + run) && sent == WritesOf(settings, packet)
              else ReachesLimit(before + run) && !IsConnected()
    {
      hide WritesOfRecords, TrailingFailures, BelowLimit, ReachesLimit, Run, MustWrite;
      BelowLimitNow(before);
      WritesAreRequired(settings, packet);
      NoOutcomes();
      ExtendedByNothing(GetLog());
      assert before + [] == before;
      var dataLinkPackets := D.ToDataLinkPackets(
        packet, settings.maxMiniSEEDRecordSize, settings.writeMiniSEED3, D.Uncompressed, settings.flushPackets,
        settings.sidLength(packet), settings.pack(packet));
      if dataLinkPackets.Err? {
        mMetrics.IncrementInvalidPackets(index);
        return consecutiveWriteFailures, [], [];
      }
      if packet.identifier.None? || !Id.Complete(packet.identifier.value) {
        mMetrics.IncrementInvalidPackets(index);
        return consecutiveWriteFailures, [], [];
      }
      var streamIdentifier := Id.DataLinkName(packet.identifier.value);
      failures, sent, run := WriteRecords(streamIdentifier, dataLinkPackets.value, consecutiveWriteFailures, before);
      SomethingToWrite(streamIdentifier, dataLinkPackets.value);
      LimitIsDecided(before);
      assert run == [] ==> before + run == before;
    }

    /** Since the n-th `dl_connect` there was one, and the latest gave no link. */
    ghost predicate EpisodeFailed(n: nat)
      reads dali
    {
      n < dali.connects && var last := dali.connectOutcome(dali.connects - 1); last.code < 0 || last.link == -1
    }

    /** One round of the loop, up to the exceptions that leave it. */
    method WriteRound(round: Option<P.State>, consecutiveWriteFailures: nat, ghost before: seq<bool>)
        returns (reconnected: bool, failures: nat, ghost sent: seq<Write>, ghost run: seq<bool>)
      requires Valid()
      requires consecutiveWriteFailures == TrailingFailures(before) && BelowLimit(before)
      modifies this, mDataLinkClient, dali, mMetrics
      ensures Valid() && SameOrNew()
      ensures old(dali.connects) <= dali.connects <= old(dali.connects) + RECONNECT_ATTEMPTS
      ensures reconnected <==> !EpisodeFailed(old(dali.connects))
      ensures |sent| == |run|
      ensures GetLog() == Extended(old(GetLog()), sent, run, if reconnected then RoundInvalid(settings, round) else 0)
      ensures dali.attempted == old(dali.attempted) + sent && dali.succeeded == old(dali.succeeded) + run
      ensures failures == TrailingFailures(before + run) && sent <= RoundWrites(settings, round)
      ensures !reconnected ==> sent == [] && run == [] && BelowLimit(before + run) && !IsConnected()
      ensures reconnected ==>
                if failures < MAX_CONSECUTIVE_FAILURES
                then BelowLimit(before + run) && sent == RoundWrites(settings, round)
                else ReachesLimit(before + run) && !IsConnected()
    {
      hide Sendable, WritesOf, TrailingFailures, BelowLimit, ReachesLimit, Episode, Extended, Run;
      BelowLimitNow(before);
      ExtendedByNothing(GetLog());
      assert before + [] == before;
      reconnected, failures, sent, run := true, consecutiveWriteFailures, [], [];
      if !IsConnected() {
        var connected := Reconnect();
        if connected.Err? {
          reconnected := false;
          return;
        }
      }
      if round.Some? {
        failures, sent, run := SendPacket(round.value, consecutiveWriteFailures, before);
      }
    }

    /** The loop. */
    method RunRounds(rounds: Rounds)
        returns (end: End, ghost sent: seq<Write>, ghost run: seq<bool>, ghost consumed: nat)
      requires Valid()
      modifies this, mDataLinkClient, dali, mMetrics
      ensures Valid() && SameOrNew() && consumed <= |rounds|
      ensures |sent| == |run|
      ensures GetLog() == Extended(old(GetLog()), sent, run, InvalidCount(settings, rounds[..consumed]))
      ensures end.CouldNotReconnect? <==> EpisodeFailed(old(dali.connects))
      ensures end.TooManyFailures? <==> ReachesLimit(run)
      ensures end.Stopped? ==> consumed == |rounds|
      ensures if end.TooManyFailures?
              then sent <= AllWrites(settings, rounds[..consumed])
              else BelowLimit(run) && sent == AllWrites(settings, rounds[..consumed])
      ensures !end.Stopped? ==> !IsConnected()
      ensures dali.connects <= old(dali.connects) + RECONNECT_ATTEMPTS * (consumed + 1)
    {
      hide AllWrites, InvalidCount, RoundWrites, RoundInvalid, TrailingFailures, BelowLimit, ReachesLimit;
      hide Extended, Run;
      NoOutcomes();
      ExtendedByNothing(GetLog());
      NothingToWrite(settings, rounds, "", []);
      var consecutiveWriteFailures := 0;
      sent, run, consumed := [], [], 0;
      for round := 0 to |rounds|
        invariant Valid() && SameOrNew() && consumed == round
        invariant |sent| == |run|
        invariant GetLog() == Extended(old(GetLog()), sent, run, InvalidCount(settings, rounds[..round]))
        invariant consecutiveWriteFailures == TrailingFailures(run) && BelowLimit(run)
        invariant sent == AllWrites(settings, rounds[..round])
        invariant old(dali.connects) <= dali.connects <= old(dali.connects) + RECONNECT_ATTEMPTS * round
        invariant !EpisodeFailed(old(dali.connects))
      {
        var reconnected;
        ghost var newlySent, newRun;
        LimitIsDecided(run);
        AnotherRound(settings, rounds, round);
        reconnected, consecutiveWriteFailures, newlySent, newRun :=
          WriteRound(rounds[round], consecutiveWriteFailures, run);
        ExtendedTwice(old(GetLog()), sent, run, InvalidCount(settings, rounds[..round]), newlySent, newRun,
                      if reconnected then RoundInvalid(settings, rounds[round]) else 0);
        sent, run := sent + newlySent, run + newRun;
        LimitIsDecided(run);
        if !reconnected {
          return CouldNotReconnect, sent, run, round;
        }
        consumed := round + 1;
        if consecutiveWriteFailures >= MAX_CONSECUTIVE_FAILURES {
          return TooManyFailures, sent, run, consumed;
        }
      }
      LimitIsDecided(run);
      assert rounds[..|rounds|] == rounds;
      end := Stopped;
    }

    /**
     * The whole run, over any rounds and any behaviour of the server.  Everything
     * popped is written in order or counted as invalid.  The run ends early exactly
     * when an episode of reconnection fails or when, for the first time, 32
     * successive writes have failed, whatever packets and connections they span.
     */
    method RunWriter(rounds: Rounds)
        returns (end: End, ghost sent: seq<Write>, ghost run: seq<bool>, ghost consumed: nat)
      requires Valid()
      modifies this, mDataLinkClient, dali, mMetrics
      ensures Valid() && SameOrNew() && consumed <= |rounds|
      ensures |sent| == |run|
      ensures GetLog() == Extended(old(GetLog()), sent, run, InvalidCount(settings, rounds[..consumed]))
      ensures dali.attempted == old(dali.attempted) + sent && dali.succeeded == old(dali.succeeded) + run
      ensures mMetrics.shared.outcomes[index] == old(mMetrics.shared.outcomes[index]) + run
      ensures mMetrics.shared.rejected[index] ==
              old(mMetrics.shared.rejected[index]) + |set k | 0 <= k < consumed && IsInvalid(settings, rounds[k])|
      ensures !end.TooManyFailures? ==>
                exists parts :: PartsOf(parts, settings, rounds[..consumed]) && sent == Concat(parts)
      ensures end.CouldNotReconnect? <==> EpisodeFailed(old(dali.connects))
      ensures end.TooManyFailures? <==> ReachesLimit(run)
      ensures end.Stopped? ==> consumed == |rounds|
      ensures if end.TooManyFailures?
              then sent <= AllWrites(settings, rounds[..consumed])
              else BelowLimit(run) && sent == AllWrites(settings, rounds[..consumed])
      ensures !end.Stopped? ==> !IsConnected()
      ensures dali.connects <= old(dali.connects) + RECONNECT_ATTEMPTS * (consumed + 1)
    {
      hide AllWrites, InvalidCount, ReachesLimit, BelowLimit, Run;
      end, sent, run, consumed := RunRounds(rounds);
      var parts := AllWritesAreRequired(settings, rounds[..consumed]);
      InvalidPacketsAreCounted(settings, rounds[..consumed]);
      assert (set k | 0 <= k < consumed && IsInvalid(settings, rounds[k]))
          == (set k | 0 <= k < |rounds[..consumed]| && IsInvalid(settings, rounds[..consumed][k]));
    }

    /** Construction, a run and destruction: whichever way it goes, every handle is freed. */
    static method Lifetime(settings: Settings, dali: Dali, metrics: WriterMetrics, index: nat, rounds: Rounds)
        returns (end: Option<End>)
      requires dali.Balanced() && dali.live == {} && metrics.Valid() && index < metrics.clients
      modifies dali, metrics
      ensures dali.Balanced() && dali.live == {} && dali.created == dali.freed
      ensures end.None? <==> dali.connectOutcome(old(dali.connects)).code < 0
    {
      var client := new DataLinkClient(settings, dali, metrics, index);
      var connected := client.Connect();
      if connected.Err? {
        return None;
      }
      ghost var sent, run, consumed;
      var ended;
      ended, sent, run, consumed := client.RunWriter(rounds);
      client.DestroyDataLinkClient();
      end := Some(ended);
    }
  }
}
