/**
 * Per-stream metrics.  The class keeps running counters and sums; its contracts
 * are stated over the whole sequence of packets the stream has received.
 */
module StreamMetrics {
  import opened Common
  import opened Text
  import opened Statistics
  import opened PacketSums
  import opened ObservableMap
  import P = Packet
  import D = DataLinkPackets
  import Id = StreamIdentifier

  /** `std::chrono::months {6}` in microseconds: a month is 2629746 seconds. */
  const SIX_MONTHS: int := 6 * 2629746 * 1000000

  /** `mSampleInterval`, in seconds */
  const SAMPLE_INTERVAL: int := 60

  /** One packet as the metrics see it: end time, the two clock readings, its numeric samples. Microseconds. */
  datatype Observation = Observation(end: int, now: int, later: int, samples: seq<real>)

  datatype Class = Good | Future | Expired | Late

  function Observe(packet: P.State, now: int, later: int): Observation {
    Observation(D.ToMicroseconds(packet.endTime), now, later, NumericSamples(packet))
  }

  // The batch view: everything is a function of the packets received.

  /** The latest end time among the packets that did not end in the future, or zero. */
  function Newest(seen: seq<Observation>): int {
    if seen == [] then 0
    else
      var o := seen[|seen| - 1];
      var before := Newest(seen[..|seen| - 1]);
      if o.end <= o.now && before < o.end then o.end else before
  }

  /** A packet is good when it ends later than every earlier packet that was not from the future. */
  ghost predicate IsRecord(seen: seq<Observation>, k: nat)
    requires k < |seen|
  {
    && 0 < seen[k].end <= seen[k].now
    && forall j :: 0 <= j < k && seen[j].end <= seen[j].now ==> seen[j].end < seen[k].end
  }

  ghost function ClassAt(seen: seq<Observation>, k: nat): Class
    requires k < |seen|
  {
    if IsRecord(seen, k) then Good
    else if seen[k].end > seen[k].now then Future
    else if seen[k].end < seen[k].now - SIX_MONTHS then Expired
    else Late
  }

  /** How many of the packets are of the class. */
  ghost function CountOf(seen: seq<Observation>, class_: Class): nat {
    if seen == [] then 0
    else CountOf(seen[..|seen| - 1], class_) + if ClassAt(seen, |seen| - 1) == class_ then 1 else 0
  }

  /** The samples of the good packets from position `from` on. */
  ghost function GoodSamples(seen: seq<Observation>, from: nat): seq<real> {
    if |seen| <= from then []
    else GoodSamples(seen[..|seen| - 1], from)
         + if ClassAt(seen, |seen| - 1) == Good then seen[|seen| - 1].samples else []
  }

  /** The summed delays of the good packets from position `from` on. */
  ghost function GoodLatency(seen: seq<Observation>, from: nat): int {
    if |seen| <= from then 0
    else
      var o := seen[|seen| - 1];
      GoodLatency(seen[..|seen| - 1], from) + if ClassAt(seen, |seen| - 1) == Good then o.later - o.end else 0
  }

  lemma {:induction false} NewestIsMaximum(seen: seq<Observation>)
    ensures Newest(seen) >= 0
    ensures forall j :: 0 <= j < |seen| && seen[j].end <= seen[j].now ==> seen[j].end <= Newest(seen)
    ensures Newest(seen) == 0
            || exists j :: 0 <= j < |seen| && seen[j].end <= seen[j].now && seen[j].end == Newest(seen)
  {
    if seen != [] {
      var init := seen[..|seen| - 1];
      NewestIsMaximum(init);
      if Newest(seen) != 0 {
        if Newest(seen) == seen[|seen| - 1].end && seen[|seen| - 1].end <= seen[|seen| - 1].now {
        } else {
          var j :| 0 <= j < |init| && init[j].end <= init[j].now && init[j].end == Newest(init);
          assert seen[j] == init[j];
        }
      }
    }
  }

  lemma NewestAppend(seen: seq<Observation>, o: Observation)
    ensures Newest(seen + [o]) == if o.end <= o.now && Newest(seen) < o.end then o.end else Newest(seen)
  {
    assert (seen + [o])[..|seen|] == seen;
  }

  /** The test the program makes against its most recent sample is the batch definition. */
  lemma RecordTest(seen: seq<Observation>, o: Observation)
    ensures IsRecord(seen + [o], |seen|) <==> o.end > Newest(seen) && o.end <= o.now
    ensures Newest(seen + [o]) == if IsRecord(seen + [o], |seen|) then o.end else Newest(seen)
  {
    NewestAppend(seen, o);
    NewestIsMaximum(seen);
    hide Newest;
    var all := seen + [o];
    assert all[|seen|] == o && forall j :: 0 <= j < |seen| ==> all[j] == seen[j];
    if o.end <= Newest(seen) && Newest(seen) != 0 {
      var j :| 0 <= j < |seen| && seen[j].end <= seen[j].now && seen[j].end == Newest(seen);
      assert all[j].end >= all[|seen|].end;
    }
  }

  lemma BatchAppend(seen: seq<Observation>, o: Observation, from: nat)
    requires from <= |seen|
    ensures var all := seen + [o];
            var c := ClassAt(all, |seen|);
            && CountOf(all, Good) == CountOf(seen, Good) + (if c == Good then 1 else 0)
            && CountOf(all, Future) == CountOf(seen, Future) + (if c == Future then 1 else 0)
            && CountOf(all, Expired) == CountOf(seen, Expired) + (if c == Expired then 1 else 0)
            && GoodLatency(all, from) == GoodLatency(seen, from) + (if c == Good then o.later - o.end else 0)
            && all[..from] == seen[..from]
  {
    assert (seen + [o])[..|seen|] == seen;
  }

  /** How one more packet changes the window. */
  lemma WindowAppend(seen: seq<Observation>, o: Observation, from: nat)
    requires from <= |seen|
    ensures GoodSamples(seen + [o], from) ==
            GoodSamples(seen, from) + if ClassAt(seen + [o], |seen|) == Good then o.samples else []
  {
    assert (seen + [o])[..|seen|] == seen;
  }

  /** The class of the newest packet, by the program's tests in the program's order. */
  lemma ClassOfNewest(seen: seq<Observation>, o: Observation)
    ensures ClassAt(seen + [o], |seen|) ==
            if o.end > Newest(seen) && o.end <= o.now then Good
            else if o.end > o.now then Future
            else if o.end < o.now - SIX_MONTHS then Expired
            else Late
  {
    RecordTest(seen, o);
  }

  /** The batch numbers after one more good packet. */
  lemma GoodAppended(seen: seq<Observation>, o: Observation, from: nat)
    requires from <= |seen| && o.end > Newest(seen) && o.end <= o.now
    ensures var all := seen + [o];
            && Newest(all) == o.end && all[..from] == seen[..from]
            && CountOf(all, Good) == CountOf(seen, Good) + 1
            && CountOf(all, Future) == CountOf(seen, Future) && CountOf(all, Expired) == CountOf(seen, Expired)
            && GoodLatency(all, from) == GoodLatency(seen, from) + (o.later - o.end)
    ensures GoodSamples(seen + [o], from) == GoodSamples(seen, from) + o.samples
  {
    RecordTest(seen, o);
    ClassOfNewest(seen, o);
    BatchAppend(seen, o, from);
    WindowAppend(seen, o, from);
  }

  // What is published at a tabulation.

  /** `spread` is the variance before the square root, `bessel` the factor applied after it. */
  datatype Report = Report(
    good: int, future: int, expired: int, total: int,
    averageLatency: real, averageCounts: real, variance: real, bessel: real)

  /** The report over the packets from position `from` on. */
  ghost function BatchReport(seen: seq<Observation>, from: nat): Report
    requires from <= |seen|
  {
    var window := GoodSamples(seen, from);
    var good := CountOf(seen, Good) - CountOf(seen[..from], Good);
    Report(
      good,
      CountOf(seen, Future) - CountOf(seen[..from], Future),
      CountOf(seen, Expired) - CountOf(seen[..from], Expired),
      |seen| - from,
      if good > 0 then GoodLatency(seen, from) as real * 0.000001 / good as real else SAMPLE_INTERVAL as real,
      if window != [] then Mean(window) else 0.0,
      if window != [] then Variance(window) else 0.0,
      if |window| > 1 then |window| as real / (|window| - 1) as real else 1.0)
  }

  // The registry of published values.

  datatype View = View(
    good: map<string, int>, future: map<string, int>, expired: map<string, int>, total: map<string, int>,
    latency: map<string, real>, average: map<string, real>, spread: map<string, (real, real)>)

  const NOTHING_PUBLISHED := View(map[], map[], map[], map[], map[], map[], map[])

  function Publish(view: View, key: string, report: Report): View {
    View(Added(view.good, key, report.good), Added(view.future, key, report.future),
         Added(view.expired, key, report.expired), Added(view.total, key, report.total),
         view.latency[key := report.averageLatency], view.average[key := report.averageCounts],
         view.spread[key := (report.bessel, report.variance)])
  }

  /** A new stream zeroes the gauges of its key; the counters get no entry before the first tabulation. */
  function ZeroGauges(view: View, key: string): View {
    view.(latency := view.latency[key := 0.0],
          average := view.average[key := 0.0], spread := view.spread[key := (1.0, 0.0)])
  }

  /** Each counter of the key grows by its own count, each gauge of the key takes its own value. */
  ghost predicate Published(before: View, after: View, key: string, report: Report) {
    && (forall k :: Get(after.good, k) == Get(before.good, k) + if k == key then report.good else 0)
    && (forall k :: Get(after.future, k) == Get(before.future, k) + if k == key then report.future else 0)
    && (forall k :: Get(after.expired, k) == Get(before.expired, k) + if k == key then report.expired else 0)
    && (forall k :: Get(after.total, k) == Get(before.total, k) + if k == key then report.total else 0)
    && after.latency == before.latency[key := report.averageLatency]
    && after.average == before.average[key := report.averageCounts]
    && after.spread == before.spread[key := (report.bessel, report.variance)]
  }

  lemma PublishIsPublished(view: View, key: string, report: Report)
    ensures Published(view, Publish(view, key, report), key, report)
  {
  }

  class Registry {
    const packetsReceived: ObservableMap
    const futurePacketsReceived: ObservableMap
    const expiredPacketsReceived: ObservableMap
    const totalPacketsReceived: ObservableMap
    var averageLatency: map<string, real>
    var averageCounts: map<string, real>
    /** The Bessel factor and the variance whose root it multiplies. */
    var standardDeviation: map<string, (real, real)>

    function Maps(): set<object> {
      {packetsReceived, futurePacketsReceived, expiredPacketsReceived, totalPacketsReceived}
    }

    ghost predicate Distinct() {
      && packetsReceived != futurePacketsReceived && packetsReceived != expiredPacketsReceived
      && packetsReceived != totalPacketsReceived && futurePacketsReceived != expiredPacketsReceived
      && futurePacketsReceived != totalPacketsReceived && expiredPacketsReceived != totalPacketsReceived
    }

    function GetView(): View
      reads this, Maps()
    {
      View(packetsReceived.mMap, futurePacketsReceived.mMap, expiredPacketsReceived.mMap, totalPacketsReceived.mMap,
           averageLatency, averageCounts, standardDeviation)
    }

    constructor ()
      ensures Distinct() && fresh(Maps()) && GetView() == NOTHING_PUBLISHED
    {
      packetsReceived := new ObservableMap();
      futurePacketsReceived := new ObservableMap();
      expiredPacketsReceived := new ObservableMap();
      totalPacketsReceived := new ObservableMap();
      averageLatency, averageCounts, standardDeviation := map[], map[], map[];
    }

    /** The end of `tabulateAndResetMetrics`. */
    method Store(key: string, report: Report)
      requires Distinct()
      modifies this, Maps()
      ensures GetView() == Publish(old(GetView()), key, report)
      ensures Published(old(GetView()), GetView(), key, report)
    {
      hide Published;
      PublishIsPublished(GetView(), key, report);
      packetsReceived.AddOrAssign(key, report.good);
      futurePacketsReceived.AddOrAssign(key, report.future);
      expiredPacketsReceived.AddOrAssign(key, report.expired);
      totalPacketsReceived.AddOrAssign(key, report.total);
      averageLatency := averageLatency[key := report.averageLatency];
      averageCounts := averageCounts[key := report.averageCounts];
      standardDeviation := standardDeviation[key := (report.bessel, report.variance)];
    }

    method ClearGauges(key: string)
      modifies this
      ensures GetView() == ZeroGauges(old(GetView()), key)
    {
      averageLatency := averageLatency[key := 0.0];
      averageCounts := averageCounts[key := 0.0];
      standardDeviation := standardDeviation[key := (1.0, 0.0)];
    }
  }

  // The metrics of one stream.

  /** The running counters, the latency sum and the end of the newest good packet. */
  datatype Running = Running(good: int, future: int, expired: int, total: int, latencySum: int, mostRecent: int)

  /** What the running numbers must be: the batch numbers over the packets since the last tabulation. */
  ghost function Batch(seen: seq<Observation>, published: nat): Running
    requires published <= |seen|
  {
    Running(
      CountOf(seen, Good) - CountOf(seen[..published], Good),
      CountOf(seen, Future) - CountOf(seen[..published], Future),
      CountOf(seen, Expired) - CountOf(seen[..published], Expired),
      |seen| - published, GoodLatency(seen, published), Newest(seen))
  }

  /** The three running sums over the samples of a window. */
  datatype Sums = Sums(count: int, sum: real, sumSquared: real)

  function SumsOf(window: seq<real>): Sums {
    Sums(|window|, Sum(window), SumOfSquares(window))
  }

  lemma SumsOfConcat(window: seq<real>, samples: seq<real>)
    ensures var a, b := SumsOf(window), SumsOf(samples);
            SumsOf(window + samples) == Sums(a.count + b.count, a.sum + b.sum, a.sumSquared + b.sumSquared)
  {
    SumsConcat(window, samples);
  }

  lemma BatchHoldsNewest(seen: seq<Observation>, published: nat)
    requires published <= |seen|
    ensures Batch(seen, published).mostRecent == Newest(seen)
  {
  }

  lemma BatchAfterGood(seen: seq<Observation>, published: nat, o: Observation)
    requires published <= |seen| && o.end > Newest(seen) && o.end <= o.now
    ensures var r := Batch(seen, published);
            Batch(seen + [o], published) ==
            Running(r.good + 1, r.future, r.expired, r.total + 1, r.latencySum + (o.later - o.end), o.end)
    ensures GoodSamples(seen + [o], published) == GoodSamples(seen, published) + o.samples
  {
    GoodAppended(seen, o, published);
  }

  lemma BatchAfterOther(seen: seq<Observation>, published: nat, o: Observation)
    requires published <= |seen| && !(o.end > Newest(seen) && o.end <= o.now)
    ensures var r := Batch(seen, published);
            Batch(seen + [o], published) ==
            r.(future := r.future + (if o.end > o.now then 1 else 0),
               expired := r.expired + (if o.end <= o.now && o.end < o.now - SIX_MONTHS then 1 else 0),
               total := r.total + 1)
    ensures GoodSamples(seen + [o], published) == GoodSamples(seen, published)
  {
    RecordTest(seen, o);
    ClassOfNewest(seen, o);
    BatchAppend(seen, o, published);
    WindowAppend(seen, o, published);
  }

  /** Right after a tabulation every running number is zero. */
  lemma BatchOfFreshWindow(seen: seq<Observation>)
    ensures Batch(seen, |seen|) == Running(0, 0, 0, 0, 0, Newest(seen))
    ensures GoodSamples(seen, |seen|) == []
  {
    assert seen[..|seen|] == seen;
  }

  lemma SumsOfNothing(window: seq<real>)
    requires window == []
    ensures SumsOf(window) == Sums(0, 0.0, 0.0)
  {
  }

  // What one packet does to the running numbers, in terms of the packet alone.

  /** Count, sum and sum of squares of the packet's own vector; text has none. */
  function OwnSums(packet: P.State): Sums {
    match packet.dataType
    case Integer32 =>
      Sums(|packet.integer32Data|, SumInts(packet.integer32Data) as real, SumIntSquares(packet.integer32Data) as real)
    case Float => Sums(|packet.floatData|, Sum(packet.floatData), SumOfSquares(packet.floatData))
    case Double => Sums(|packet.doubleData|, Sum(packet.doubleData), SumOfSquares(packet.doubleData))
    case Text => Sums(0, 0.0, 0.0)
    case Unknown => Sums(0, 0.0, 0.0)
  }

  /** A packet ending at `end` is good, from the future, expired or late, and counted as such. */
  predicate CountedAs(before: Running, after: Running, end: int, now: int, later: int) {
    && after.total == before.total + 1
    && (if end <= now && before.mostRecent < end then
          && after.good == before.good + 1 && after.latencySum == before.latencySum + (later - end)
          && after.mostRecent == end && after.future == before.future && after.expired == before.expired
        else
          && after.good == before.good && after.latencySum == before.latencySum
          && after.mostRecent == before.mostRecent
          && after.future == before.future + (if end > now then 1 else 0)
          && after.expired == before.expired + (if end <= now && end < now - 6 * 2629746 * 1000000 then 1 else 0))
  }

  /** The samples of a good packet enter the sums, those of any other do not. */
  predicate SummedAs(before: Running, sums: Sums, after: Sums, own: Sums, end: int, now: int) {
    if end <= now && before.mostRecent < end then
      after == Sums(sums.count + own.count, sums.sum + own.sum, sums.sumSquared + own.sumSquared)
    else
      after == sums
  }

  /** Whatever microsecond the packet's end time falls in, it is counted and summed as such. */
  ghost predicate Recorded(packet: P.State, now: int, later: int, before: Running, sums: Sums,
                           after: Running, afterSums: Sums)
  {
    P.GetEndTime(packet).Ok? &&
    forall end :: D.TruncatesTo(P.GetEndTime(packet).value, end) ==>
      CountedAs(before, after, end, now, later) && SummedAs(before, sums, afterSums, OwnSums(packet), end, now)
  }

  /** Mean, variance and Bessel factor of the running sums. */
  predicate Averaged(sums: Sums, average: real, variance: real, bessel: real) {
    && (sums.count <= 0 ==> average == 0.0 && variance == 0.0)
    && (sums.count > 0 ==>
          && average == sums.sum / sums.count as real
          && variance == sums.sumSquared / sums.count as real - Times(average, average))
    && (sums.count <= 1 ==> bessel == 1.0)
    && (sums.count > 1 ==> bessel == sums.count as real / (sums.count - 1) as real)
  }

  /** The report carries the running counters, the mean latency in seconds, and the averages. */
  predicate Tabulates(report: Report, running: Running, sums: Sums) {
    && report.good == running.good && report.future == running.future
    && report.expired == running.expired && report.total == running.total
    && (running.good > 0 ==> report.averageLatency == running.latencySum as real * 0.000001 / running.good as real)
    && (running.good <= 0 ==> report.averageLatency == 60.0)
    && Averaged(sums, report.averageCounts, report.variance, report.bessel)
  }

  /** An observation carries the end time of the packet, the clock and the packet's own samples. */
  lemma ObservationIsOfPacket(packet: P.State, now: int, later: int)
    requires P.GetEndTime(packet).Ok?
    ensures var o := Observe(packet, now, later);
            && D.TruncatesTo(P.GetEndTime(packet).value, o.end) && o.now == now && o.later == later
            && SumsOf(o.samples) == OwnSums(packet)
    ensures forall end :: D.TruncatesTo(P.GetEndTime(packet).value, end) ==> end == Observe(packet, now, later).end
  {
    forall end ensures D.TruncatesTo(packet.endTime, end) <==> end == D.ToMicroseconds(packet.endTime) {
      D.TruncationIsUnique(packet.endTime, end);
    }
    if packet.dataType == P.Integer32 {
      IntegerSums(packet.integer32Data);
    } else if packet.dataType == P.Text {
      SumsOfNothing(Observe(packet, now, later).samples);
    }
  }

  lemma NoPackets() returns (nothing: seq<Observation>)
    ensures |nothing| == 0
  {
    nothing := [];
  }

  class StreamMetrics {
    const mName: string
    const mMetricsKey: string
    var mLastUpdate: int
    var mLatency: int
    var mRunningLatencySum: int
    var mMostRecentSample: int
    var mRunningSum: real
    var mRunningSumSquared: real
    var mRunningPacketsCounter: int
    var mRunningFuturePacketsCounter: int
    var mRunningExpiredPacketsCounter: int
    var mRunningTotalPacketsCounter: int
    var mRunningSamplesCounter: int
    /** Every packet counted so far, and how many of them were already published. */
    ghost var seen: seq<Observation>
    ghost var published: nat

    function GetRunning(): Running
      reads this
    {
      Running(mRunningPacketsCounter, mRunningFuturePacketsCounter, mRunningExpiredPacketsCounter,
              mRunningTotalPacketsCounter, mRunningLatencySum, mMostRecentSample)
    }

    function GetSums(): Sums
      reads this
    {
      Sums(mRunningSamplesCounter, mRunningSum, mRunningSumSquared)
    }

    ghost predicate Valid()
      reads this
    {
      && published <= |seen|
      && GetRunning() == Batch(seen, published)
      && GetSums() == SumsOf(GoodSamples(seen, published))
    }

    constructor (identifier: Id.Fields)
      ensures Valid() && |seen| == 0 && published == 0
      ensures mName == Id.DottedName(identifier) && mMetricsKey == Id.MetricsKey(identifier)
      ensures GetRunning() == Running(0, 0, 0, 0, 0, 0) && GetSums() == Sums(0, 0.0, 0.0)
      ensures var id := identifier;
              mMetricsKey == ToLower(id.network + "_" + id.station + "_" + id.channel
                                     + if id.locationCode == "" then "" else "_" + id.locationCode)
    {
      mName, mMetricsKey := Id.DottedName(identifier), Id.MetricsKey(identifier);
      mLastUpdate, mLatency, mRunningLatencySum, mMostRecentSample := 0, 0, 0, 0;
      mRunningSum, mRunningSumSquared := 0.0, 0.0;
      mRunningPacketsCounter, mRunningFuturePacketsCounter, mRunningExpiredPacketsCounter := 0, 0, 0;
      mRunningTotalPacketsCounter, mRunningSamplesCounter := 0, 0;
      ghost var nothing := NoPackets();
      seen, published := nothing, 0;
    }

    /** The good branch of `update`, under the lock. */
    method CountGood(o: Observation, nSamples: int, packetSum: real, packetSum2: real)
      requires Valid() && o.end > mMostRecentSample && o.end <= o.now
      requires Sums(nSamples, packetSum, packetSum2) == SumsOf(o.samples)
      modifies this
      ensures Valid() && seen == old(seen) + [o] && published == old(published)
      ensures CountedAs(old(GetRunning()), GetRunning(), o.end, o.now, o.later)
      ensures SummedAs(old(GetRunning()), old(GetSums()), GetSums(), Sums(nSamples, packetSum, packetSum2),
                       o.end, o.now)
    {
      hide Batch, GoodSamples, SumsOf, Newest, Sum, Squares, SumOfSquares;
      BatchHoldsNewest(seen, published);
      BatchAfterGood(seen, published, o);
      SumsOfConcat(GoodSamples(seen, published), o.samples);
      mLastUpdate, mMostRecentSample, mLatency := o.later, o.end, o.later - o.end;
      mRunningPacketsCounter := mRunningPacketsCounter + 1;
      mRunningTotalPacketsCounter := mRunningTotalPacketsCounter + 1;
      mRunningSamplesCounter := mRunningSamplesCounter + nSamples;
      mRunningSum := mRunningSum + packetSum;
      mRunningLatencySum := mRunningLatencySum + mLatency;
      mRunningSumSquared := mRunningSumSquared + packetSum2;
      seen := seen + [o];
    }

    /** The three other branches of `update`, under the lock. */
    method CountOther(o: Observation)
      requires Valid() && !(o.end > mMostRecentSample && o.end <= o.now)
      modifies this
      ensures Valid() && seen == old(seen) + [o] && published == old(published)
      ensures CountedAs(old(GetRunning()), GetRunning(), o.end, o.now, o.later) && GetSums() == old(GetSums())
    {
      hide Batch, GoodSamples, SumsOf, Newest;
      BatchHoldsNewest(seen, published);
      BatchAfterOther(seen, published, o);
      if o.end > o.now {
        mRunningFuturePacketsCounter := mRunningFuturePacketsCounter + 1;
      } else if o.end < o.now - SIX_MONTHS {
        mRunningExpiredPacketsCounter := mRunningExpiredPacketsCounter + 1;
      }
      mRunningTotalPacketsCounter := mRunningTotalPacketsCounter + 1;
      mLastUpdate := o.later;
      seen := seen + [o];
    }

    /**
     * A packet of another stream, or one without an end time, throws and changes
     * nothing; any other packet is counted in exactly its batch class.
     */
    method Update(packet: P.State, now: int, later: int) returns (r: Result<()>)
      requires Valid()
      modifies this
      ensures Valid() && published == old(published)
      ensures r.Ok? <==>
              packet.identifier.Some? && Id.NameOf(packet.identifier.value) == Ok(mName) && P.GetEndTime(packet).Ok?
      ensures r.Ok? ==> seen == old(seen) + [Observe(packet, now, later)]
      ensures r.Err? ==> r.error == RuntimeError && seen == old(seen) && unchanged(this)
      ensures r.Ok? ==> Recorded(packet, now, later, old(GetRunning()), old(GetSums()), GetRunning(), GetSums())
    {
      if packet.identifier.None? {
        return Err(RuntimeError);
      }
      var name := Id.NameOf(packet.identifier.value);
      if name != Ok(mName) {
        return Err(RuntimeError);
      }
      var endTime := P.GetEndTime(packet);
      if endTime.Err? {
        return Err(RuntimeError);
      }
      ObservationIsOfPacket(packet, now, later);
      var o := Observe(packet, now, later);
      if o.end > mMostRecentSample && o.end <= now {
        var metricsSuccess := true;
        var nSamples, packetSum, packetSum2 := 0, 0.0, 0.0;
        if IsNumeric(packet) {
          var sum := ComputeSumOfSamples(packet);
          var sum2 := ComputeSumOfSamplesSquared(packet);
          if sum.Ok? && sum2.Ok? {
            nSamples, packetSum, packetSum2 := P.Size(packet), sum.value, sum2.value;
          } else {
            metricsSuccess := false;
          }
        } else {
          SumsOfNothing(o.samples);
        }
        assert metricsSuccess;  // the sums of a numeric packet never throw
        CountGood(o, nSamples, packetSum, packetSum2);
      } else {
        CountOther(o);
      }
      return Ok(());
    }

    /** The averages and the variance, from the running sums. */
    method Averages() returns (averageCounts: real, variance: real, bessel: real)
      requires Valid()
      ensures var window := GoodSamples(seen, published);
              && averageCounts == (if window != [] then Mean(window) else 0.0)
              && variance == (if window != [] then Variance(window) else 0.0) && variance >= 0.0
              && bessel == if |window| > 1 then |window| as real / (|window| - 1) as real else 1.0
      ensures Averaged(GetSums(), averageCounts, variance, bessel)
    {
      averageCounts, variance, bessel := 0.0, 0.0, 1.0;
      if mRunningSamplesCounter > 0 {
        if mRunningSamplesCounter > 1 {
          bessel := mRunningSamplesCounter as real / (mRunningSamplesCounter - 1) as real;
        }
        averageCounts := mRunningSum / mRunningSamplesCounter as real;
        variance := mRunningSumSquared / mRunningSamplesCounter as real - Times(averageCounts, averageCounts);
        VarianceFormula(GoodSamples(seen, published));
        VarianceNonNegative(GoodSamples(seen, published));
      }
    }

    method Reset()
      requires Valid()
      modifies this
      ensures Valid() && seen == old(seen) && published == |seen|
      ensures GetRunning() == Running(0, 0, 0, 0, 0, old(mMostRecentSample)) && GetSums() == Sums(0, 0.0, 0.0)
    {
      hide Batch, GoodSamples, SumsOf, Newest;
      BatchHoldsNewest(seen, published);
      mRunningSum, mRunningSumSquared, mRunningSamplesCounter, mRunningLatencySum := 0.0, 0.0, 0, 0;
      mRunningPacketsCounter, mRunningExpiredPacketsCounter := 0, 0;
      mRunningFuturePacketsCounter, mRunningTotalPacketsCounter := 0, 0;
      published := |seen|;
      BatchOfFreshWindow(seen);
      SumsOfNothing(GoodSamples(seen, published));
    }

    /**
     * What is reported is the batch statistics of the packets since the previous
     * tabulation; the clamp against negative variances never changes anything.
     */
    method TabulateAndReset() returns (report: Report)
      requires Valid()
      modifies this
      ensures Valid() && seen == old(seen) && published == |seen|
      ensures report == BatchReport(old(seen), old(published))
      ensures Tabulates(report, old(GetRunning()), old(GetSums()))
      ensures GetRunning() == Running(0, 0, 0, 0, 0, old(mMostRecentSample)) && GetSums() == Sums(0, 0.0, 0.0)
    {
      var averageCounts, variance, bessel := Averages();
      var averageLatency := SAMPLE_INTERVAL as real;
      if mRunningPacketsCounter > 0 {
        averageLatency := mRunningLatencySum as real * 0.000001 / mRunningPacketsCounter as real;
      }
      var clamped := if variance > 0.0 then variance else 0.0;
      report := Report(mRunningPacketsCounter, mRunningFuturePacketsCounter, mRunningExpiredPacketsCounter,
                       mRunningTotalPacketsCounter, averageLatency, averageCounts, clamped, bessel);
      Reset();
    }
  }

  // What the classification means.

  /** Good packets end strictly later than one another and never after the clock. */
  lemma GoodPacketsAdvance(seen: seq<Observation>, j: nat, k: nat)
    requires j < k < |seen| && ClassAt(seen, j) == Good && ClassAt(seen, k) == Good
    ensures seen[j].end < seen[k].end <= seen[k].now
  {
  }

  /** A packet that repeats or precedes an earlier one that was on time is never good. */
  lemma RepeatsAreNotGood(seen: seq<Observation>, j: nat, k: nat)
    requires j < k < |seen| && seen[j].end <= seen[j].now && seen[k].end <= seen[j].end
    ensures ClassAt(seen, k) != Good
  {
  }

  /** Total = good + future + expired + the late packets, which are in no other class. */
  lemma {:induction false} ClassesPartition(seen: seq<Observation>)
    ensures CountOf(seen, Good) + CountOf(seen, Future) + CountOf(seen, Expired) + CountOf(seen, Late) == |seen|
  {
    if seen != [] {
      ClassesPartition(seen[..|seen| - 1]);
    }
  }

  /** The documented total (good, future and expired) is right exactly when no packet was late. */
  lemma DocumentedTotal(seen: seq<Observation>)
    ensures CountOf(seen, Good) + CountOf(seen, Future) + CountOf(seen, Expired) == |seen|
            <==> forall k :: 0 <= k < |seen| ==> ClassAt(seen, k) != Late
  {
    ClassesPartition(seen);
    NoneLate(seen);
  }

  lemma {:induction false} NoneLate(seen: seq<Observation>)
    ensures CountOf(seen, Late) == 0 <==> forall k :: 0 <= k < |seen| ==> ClassAt(seen, k) != Late
  {
    if seen != [] {
      var init := seen[..|seen| - 1];
      NoneLate(init);
      forall k | 0 <= k < |init| ensures ClassAt(seen, k) == ClassAt(init, k) {
        SameClass(seen, init, k);
      }
    }
  }

  /** The class of a packet depends only on the packets up to it. */
  lemma SameClass(seen: seq<Observation>, prefix: seq<Observation>, k: nat)
    requires k < |prefix| && prefix <= seen
    ensures ClassAt(seen, k) == ClassAt(prefix, k)
  {
    assert forall j :: 0 <= j <= k ==> seen[j] == prefix[j];
  }

  /** A packet older than six months is expired exactly when it is not newer than all before it. */
  lemma OldPacketsCountAsGood(seen: seq<Observation>, k: nat)
    requires k < |seen| && seen[k].end < seen[k].now - SIX_MONTHS
    ensures ClassAt(seen, k) == Expired <==>
            seen[k].end <= 0 || exists j :: 0 <= j < k && seen[j].end <= seen[j].now && seen[k].end <= seen[j].end
  {
  }

  /** With a clock that does not run backwards, latencies are never negative. */
  lemma {:induction false} LatencyNonNegative(seen: seq<Observation>, from: nat)
    requires forall k :: 0 <= k < |seen| ==> seen[k].now <= seen[k].later
    ensures GoodLatency(seen, from) >= 0
  {
    if |seen| > from {
      LatencyNonNegative(seen[..|seen| - 1], from);
    }
  }

  /** The reported mean lies within the samples' range; the variance is zero only for constant samples. */
  lemma ReportIsMeaningful(seen: seq<Observation>, from: nat, lo: real, hi: real)
    requires from <= |seen| && GoodSamples(seen, from) != []
    requires forall i :: 0 <= i < |GoodSamples(seen, from)| ==> lo <= GoodSamples(seen, from)[i] <= hi
    ensures var report, window := BatchReport(seen, from), GoodSamples(seen, from);
            && lo <= report.averageCounts <= hi
            && report.variance >= 0.0
            && (report.variance == 0.0 <==> AllEqual(window, window[0]))
  {
    MeanIsBetween(GoodSamples(seen, from), lo, hi);
    VarianceNonNegative(GoodSamples(seen, from));
  }
}
