/** The metrics thread's map from stream name to stream metrics. */
module MetricsMap {
  import opened Common
  import opened ObservableMap
  import opened StreamMetrics
  import opened MetricsHistory
  import P = Packet
  import Id = StreamIdentifier

  /** The stream's metrics object holds the packets the history gives this stream, under its key. */
  ghost predicate Follows(m: StreamMetrics, history: seq<Event>, name: string)
    reads m
  {
    && m.Valid() && m.mName == name
    && name in Names(history) && m.mMetricsKey == KeyOf(history, name)
    && m.seen == SeenOf(history, name) && m.published == |PublishedOf(history, name)|
  }

  lemma ViewAfterReport(init: seq<Event>, name: string, report: Report)
    requires name in Names(init) && |PublishedOf(init, name)| <= |SeenOf(init, name)|
    requires report == BatchReport(SeenOf(init, name), |PublishedOf(init, name)|)
    ensures PublishedView(init + [Tabulated(name)]) == Publish(PublishedView(init), KeyOf(init, name), report)
  {
    hide BatchReport;
    assert (init + [Tabulated(name)])[..|init|] == init;
  }

  lemma ViewAfterReceived(init: seq<Event>, e: Event)
    requires e.Received?
    ensures PublishedView(init + [e]) ==
            if NameOf(e.packet).Ok? && NameOf(e.packet).value !in Names(init)
            then ZeroGauges(PublishedView(init), Id.MetricsKey(e.packet.identifier.value)) else PublishedView(init)
  {
    assert (init + [e])[..|init|] == init;
  }

  lemma TabulatedEverywhere(init: seq<Event>, tabulated: string)
    ensures forall name :: SeenOf(init + [Tabulated(tabulated)], name) == SeenOf(init, name)
    ensures forall name :: PublishedOf(init + [Tabulated(tabulated)], name) ==
                           if name == tabulated then SeenOf(init, name) else PublishedOf(init, name)
  {
    forall name
      ensures SeenOf(init + [Tabulated(tabulated)], name) == SeenOf(init, name)
      ensures PublishedOf(init + [Tabulated(tabulated)], name) ==
              if name == tabulated then SeenOf(init, name) else PublishedOf(init, name)
    {
      AfterTabulated(init, tabulated, name);
    }
  }

  const NO_RUNNING := Running(0, 0, 0, 0, 0, 0)
  const NO_SUMS := Sums(0, 0.0, 0.0)

  lemma CountsMeans(packet: P.State)
    ensures Counts(packet) <==>
            packet.identifier.Some? && Id.Complete(packet.identifier.value) && P.GetEndTime(packet).Ok?
  {
  }

  lemma NameMeans(packet: P.State)
    ensures packet.identifier.None? || Id.NameOf(packet.identifier.value).Err? ==> NameOf(packet).Err?
    ensures packet.identifier.Some? && Id.NameOf(packet.identifier.value).Ok? ==>
              NameOf(packet) == Id.NameOf(packet.identifier.value) == Ok(Id.DottedName(packet.identifier.value))
  {
  }

  class MetricsMap {
    var mMetrics: map<string, StreamMetrics>
    var mLastSampleTime: int
    const registry: Registry
    /** Every packet and every single-stream tabulation so far. */
    ghost var history: seq<Event>

    ghost predicate Valid()
      reads this, registry, registry.Maps(), mMetrics.Values
    {
      && registry.Distinct() && registry.GetView() == PublishedView(history)
      && mMetrics.Keys == Names(history)
      && (forall name :: name in mMetrics ==> Follows(mMetrics[name], history, name))
      && (forall a, b :: a in mMetrics && b in mMetrics && a != b ==> mMetrics[a] != mMetrics[b])
    }

    constructor (registry: Registry, now: int)
      requires registry.Distinct() && registry.GetView() == NOTHING_PUBLISHED
      ensures Valid() && history == [] && this.registry == registry && mMetrics == map[]
    {
      this.registry := registry;
      mMetrics, mLastSampleTime, history := map[], now, [];
    }

    /** One round of the loop in `tabulateAndResetAllMetrics`. */
    method TabulateOne(name: string, metric: StreamMetrics) returns (ghost published: Report)
      requires Valid() && name in mMetrics && mMetrics[name] == metric
      modifies this`history, registry, registry.Maps(), metric
      ensures Tabulates(published, old(metric.GetRunning()), old(metric.GetSums()))
      ensures Published(old(registry.GetView()), registry.GetView(), metric.mMetricsKey, published)
      ensures metric.GetRunning() == NO_RUNNING.(mostRecent := old(metric.mMostRecentSample))
      ensures metric.GetSums() == NO_SUMS
      ensures Valid() && history == old(history) + [Tabulated(name)]
    {
      hide Batch, BatchReport, SumsOf, GoodSamples, CountOf, Newest, GoodLatency, ClassAt, IsRecord;
      hide Names, SeenOf, PublishedOf, PublishedView, KeyOf, Publish, Published, Tabulates;
      assert Follows(mMetrics[name], history, name);
      assert metric.mMetricsKey == KeyOf(history, name);
      hide Follows;
      ghost var init := history;
      AfterTabulated(init, name, name);
      forall other | other in mMetrics && other != name
        ensures Follows(mMetrics[other], init + [Tabulated(name)], other)
      {
        StillFollows(mMetrics[other], init, name, other);
      }
      var report := TabulateStream(metric, name);
      registry.Store(metric.mMetricsKey, report);
      history := init + [Tabulated(name)];
      published := report;
      ViewAfterReport(init, name, report);
    }

    /** Tabulating another stream changes nothing for this one. */
    lemma StillFollows(m: StreamMetrics, init: seq<Event>, tabulated: string, name: string)
      requires Follows(m, init, name) && tabulated != name
      ensures Follows(m, init + [Tabulated(tabulated)], name)
    {
      hide Batch, SumsOf, GoodSamples, Names, SeenOf, PublishedOf, KeyOf;
      AfterTabulated(init, tabulated, name);
    }

    /** The stream's own part: its batch report, after which it has published everything. */
    method TabulateStream(m: StreamMetrics, name: string) returns (report: Report)
      requires Follows(m, history, name)
      modifies m
      ensures Follows(m, history + [Tabulated(name)], name)
      ensures |PublishedOf(history, name)| <= |SeenOf(history, name)|
      ensures report == BatchReport(SeenOf(history, name), |PublishedOf(history, name)|)
      ensures Tabulates(report, old(m.GetRunning()), old(m.GetSums()))
      ensures m.GetRunning() == Running(0, 0, 0, 0, 0, old(m.mMostRecentSample)) && m.GetSums() == NO_SUMS
    {
      hide Batch, BatchReport, SumsOf, GoodSamples, Names, SeenOf, PublishedOf, KeyOf, Tabulates;
      AfterTabulated(history, name, name);
      report := m.TabulateAndReset();
    }

    /** All streams follow the history, except that one packet of `name` is not recorded yet. */
    ghost predicate ValidBut(e: Event)
      reads this, registry, registry.Maps(), mMetrics.Values
    {
      && e.Received? && registry.Distinct() && registry.GetView() == PublishedView(history)
      && mMetrics.Keys == Names(history)
      && (forall name :: name in mMetrics && !(Counts(e.packet) && NameOf(e.packet) == Ok(name)) ==>
            Follows(mMetrics[name], history + [e], name))
      && (forall a, b :: a in mMetrics && b in mMetrics && a != b ==> mMetrics[a] != mMetrics[b])
    }

    lemma Prepare(e: Event)
      requires Valid() && e.Received?
      ensures ValidBut(e)
    {
      hide Batch, BatchReport, SumsOf, GoodSamples, CountOf, Newest, GoodLatency, ClassAt, IsRecord;
      hide Names, SeenOf, PublishedOf, PublishedView, KeyOf, Publish, ZeroGauges, NameOf, Counts;
      forall name | name in mMetrics && !(Counts(e.packet) && NameOf(e.packet) == Ok(name))
        ensures Follows(mMetrics[name], history + [e], name)
      {
        AfterReceived(history, e, name);
        assert SeenOf(history, name) + [] == SeenOf(history, name);
      }
    }

    /** The object that `update` builds for a new name, with the packet already offered to it. */
    method NewMetrics(packet: P.State, now: int, later: int) returns (m: StreamMetrics, r: Result<()>)
      requires NameOf(packet).Ok?
      ensures fresh(m) && m.Valid() && m.published == 0
      ensures m.mName == NameOf(packet).value && m.mMetricsKey == Id.MetricsKey(packet.identifier.value)
      ensures r.Ok? <==> Counts(packet)
      ensures r.Ok? ==> m.seen == [Observe(packet, now, later)]
      ensures r.Ok? ==> Recorded(packet, now, later, NO_RUNNING, NO_SUMS, m.GetRunning(), m.GetSums())
    {
      m := new StreamMetrics(packet.identifier.value);
      ghost var nothing := m.seen;
      r := m.Update(packet, now, later);
      assert nothing + [Observe(packet, now, later)] == [Observe(packet, now, later)];
    }

    /** The first packet of a stream makes its new metrics follow the history. */
    lemma StartsFollowing(m: StreamMetrics, init: seq<Event>, e: Event, name: string)
      requires e.Received? && Counts(e.packet) && NameOf(e.packet) == Ok(name) && name !in Names(init)
      requires m.Valid() && m.mName == name && m.mMetricsKey == Id.MetricsKey(e.packet.identifier.value)
      requires m.published == 0 && m.seen == [Observe(e.packet, e.now, e.later)]
      ensures Follows(m, init + [e], name)
    {
      hide Batch, SumsOf, GoodSamples, Names, SeenOf, PublishedOf, KeyOf, Counts, NameOf, Observe;
      AfterReceived(init, e, name);
      PublishedIsPrefix(init, name);
    }

    /** The branch of `update` for a new name: the new object is kept only if it counts the packet. */
    method AddStream(identifier: string, packet: P.State, now: int, later: int) returns (r: Result<()>)
      requires Valid() && identifier !in mMetrics && NameOf(packet) == Ok(identifier)
      modifies this`mMetrics, this`history, registry
      ensures Valid() && fresh(mMetrics.Values - old(mMetrics.Values))
      ensures history == old(history) + [Received(packet, now, later)]
      ensures r.Ok? <==> Counts(packet)
      ensures if r.Ok? then identifier in mMetrics && mMetrics == old(mMetrics)[identifier := mMetrics[identifier]]
              else mMetrics == old(mMetrics)
      ensures r.Ok? ==> Recorded(packet, now, later, NO_RUNNING, NO_SUMS,
                                 mMetrics[identifier].GetRunning(), mMetrics[identifier].GetSums())
    {
      hide Batch, BatchReport, SumsOf, GoodSamples, CountOf, Newest, GoodLatency, ClassAt, IsRecord;
      hide Names, SeenOf, PublishedOf, PublishedView, KeyOf, Publish, ZeroGauges, Counts, Observe, Follows, Recorded;
      hide Id.MetricsKey, Id.DottedName;
      ghost var e := Received(packet, now, later);
      Prepare(e);
      ViewAfterReceived(history, e);
      AfterReceived(history, e, identifier);
      registry.ClearGauges(Id.MetricsKey(packet.identifier.value));
      var streamMetrics;
      streamMetrics, r := NewMetrics(packet, now, later);
      history := history + [e];
      if r.Ok? {
        mMetrics := mMetrics[identifier := streamMetrics];
        StartsFollowing(streamMetrics, old(history), e, identifier);
        assert mMetrics.Keys == Names(history);
        forall name | name in mMetrics ensures Follows(mMetrics[name], history, name) {
          assert name != identifier ==> name in old(mMetrics);
        }
      }
    }

    method UpdateStream(identifier: string, packet: P.State, now: int, later: int) returns (r: Result<()>)
      requires Valid() && identifier in mMetrics && NameOf(packet) == Ok(identifier)
      modifies this`history, mMetrics[identifier]
      ensures Valid()
      ensures history == old(history) + [Received(packet, now, later)]
      ensures r.Ok? <==> Counts(packet)
      ensures var m := mMetrics[identifier];
              if r.Ok? then
                Recorded(packet, now, later, old(m.GetRunning()), old(m.GetSums()), m.GetRunning(), m.GetSums())
              else
                m.GetRunning() == old(m.GetRunning()) && m.GetSums() == old(m.GetSums())
      ensures forall other :: other in mMetrics && other != identifier ==>
                && mMetrics[other].GetRunning() == old(mMetrics[other].GetRunning())
                && mMetrics[other].GetSums() == old(mMetrics[other].GetSums())
    {
      hide Batch, BatchReport, SumsOf, GoodSamples, CountOf, Newest, GoodLatency, ClassAt, IsRecord;
      hide Names, SeenOf, PublishedOf, PublishedView, KeyOf, Publish, ZeroGauges;
      ghost var e := Received(packet, now, later);
      Prepare(e);
      ViewAfterReceived(history, e);
      AfterReceived(history, e, identifier);
      r := mMetrics[identifier].Update(packet, now, later);
      history := history + [e];
    }

    /** A packet without a name changes nothing but the history. */
    ghost method RejectUnnamed(packet: P.State, now: int, later: int)
      requires Valid() && NameOf(packet).Err?
      modifies this`history
      ensures Valid() && history == old(history) + [Received(packet, now, later)]
    {
      hide Batch, SumsOf, GoodSamples, Names, SeenOf, PublishedOf, PublishedView, KeyOf, ZeroGauges, NameOf, Follows;
      var e := Received(packet, now, later);
      Prepare(e);
      ViewAfterReceived(history, e);
      AfterReceived(history, e, "");
      history := history + [e];
    }

    /**
     * A packet without a complete identifier, a rate or samples throws and is not
     * counted anywhere; any other is counted in its own stream and no other.
     */
    method Update(packet: P.State, now: int, later: int) returns (r: Result<()>)
      requires Valid()
      modifies this`mMetrics, this`history, registry, mMetrics.Values
      ensures Valid() && fresh(mMetrics.Values - old(mMetrics.Values))
      ensures history == old(history) + [Received(packet, now, later)]
      ensures r.Ok? <==> Counts(packet)
      ensures r.Ok? <==>
              packet.identifier.Some? && Id.Complete(packet.identifier.value) && P.GetEndTime(packet).Ok?
      ensures r.Ok? ==>
                var name := Id.DottedName(packet.identifier.value);
                && mMetrics.Keys == old(mMetrics.Keys) + {name}
                && Recorded(packet, now, later,
                            if name in old(mMetrics) then old(mMetrics[name].GetRunning()) else NO_RUNNING,
                            if name in old(mMetrics) then old(mMetrics[name].GetSums()) else NO_SUMS,
                            mMetrics[name].GetRunning(), mMetrics[name].GetSums())
      ensures r.Err? ==> mMetrics == old(mMetrics)
      ensures forall other :: other in old(mMetrics) && (r.Ok? ==> other != Id.DottedName(packet.identifier.value)) ==>
                && other in mMetrics && mMetrics[other] == old(mMetrics[other])
                && mMetrics[other].GetRunning() == old(mMetrics[other].GetRunning())
                && mMetrics[other].GetSums() == old(mMetrics[other].GetSums())
    {
      hide Recorded, NameOf, Counts, Valid;
      assert Counts(packet) <==>
             packet.identifier.Some? && Id.Complete(packet.identifier.value) && P.GetEndTime(packet).Ok? by {
        CountsMeans(packet);
      }
      NameMeans(packet);
      if packet.identifier.None? || Id.NameOf(packet.identifier.value).Err? {
        RejectUnnamed(packet, now, later);
        return Err(RuntimeError);
      }
      var identifier := Id.NameOf(packet.identifier.value).value;
      if identifier !in mMetrics {
        r := AddStream(identifier, packet, now, later);
      } else {
        r := UpdateStream(identifier, packet, now, later);
      }
    }

    /** The loop of `tabulateAndResetAllMetrics`; the order in which it takes the streams does not matter. */
    method TabulateEachStream()
      requires Valid()
      modifies this`history, registry, registry.Maps(), mMetrics.Values
      ensures Valid()
      ensures forall name :: name in mMetrics ==>
                PublishedOf(history, name) == SeenOf(history, name) == SeenOf(old(history), name)
    {
      hide Names, SeenOf, PublishedOf, PublishedView, KeyOf, Follows, Valid;
      var remaining := mMetrics.Keys;
      while remaining != {}
        invariant Valid() && remaining <= mMetrics.Keys
        invariant forall name :: name in mMetrics ==> SeenOf(history, name) == SeenOf(old(history), name)
        invariant forall name :: name in mMetrics && name !in remaining ==>
                    PublishedOf(history, name) == SeenOf(history, name)
        decreases |remaining|
      {
        var name :| name in remaining;
        TabulatedEverywhere(history, name);
        ghost var published := TabulateOne(name, mMetrics[name]);
        remaining := remaining - {name};
      }
    }

    /** Nothing happens before the interval has passed; then every stream is tabulated. */
    method TabulateAndResetAllMetrics(now: int)
      requires Valid()
      modifies this`history, this`mLastSampleTime, registry, registry.Maps(), mMetrics.Values
      ensures Valid()
      ensures if now > old(mLastSampleTime) + 60000000
              then mLastSampleTime == now && forall name :: name in mMetrics ==>
                     PublishedOf(history, name) == SeenOf(history, name) == SeenOf(old(history), name)
              else mLastSampleTime == old(mLastSampleTime) && history == old(history)
    {
      hide Names, SeenOf, PublishedOf, PublishedView, KeyOf, Follows;
      if now > mLastSampleTime + SAMPLE_INTERVAL * 1000000 {
        mLastSampleTime := now;
        TabulateEachStream();
      }
    }
  }

  function RunningCount(running: Running, c: Counter): int {
    match c
    case GoodCounter => running.good
    case FutureCounter => running.future
    case ExpiredCounter => running.expired
    case TotalCounter => running.total
  }

  lemma BatchCounts(seen: seq<Observation>, published: nat, c: Counter)
    requires published <= |seen|
    ensures RunningCount(Batch(seen, published), c) == Tally(seen, c) - Tally(seen[..published], c)
  {
  }

  /**
   * Whatever was received and whenever streams were tabulated: the published
   * counter under the stream's key plus the stream's running counter is the
   * number of that stream's own packets in the class.  What is required of the
   * map is part of `Valid()`.
   */
  lemma ConservationPerStream(m: MetricsMap, name: string, c: Counter)
    requires name in m.mMetrics && Follows(m.mMetrics[name], m.history, name)
    requires m.registry.GetView() == PublishedView(m.history) && CleanIdentifiers(m.history)
    ensures Get(CounterMap(m.registry.GetView(), c), m.mMetrics[name].mMetricsKey)
            + RunningCount(m.mMetrics[name].GetRunning(), c) == Tally(SeenOf(m.history, name), c)
  {
    hide Batch, Tally, CleanIdentifiers, Names, SeenOf, PublishedOf, PublishedView, KeyOf;
    var seen, published := SeenOf(m.history, name), PublishedOf(m.history, name);
    PublishedCounterPerStream(m.history, name, c);
    PublishedIsPrefix(m.history, name);
    BatchCounts(seen, |published|, c);
    assert seen[..|published|] == published;
  }

  /** The shared total counters are fit for the periodic summary and never exceed the packets received. */
  lemma SummaryReadsReceivedPackets(m: MetricsMap)
    requires m.Valid()
    ensures NonNegative(m.registry.totalPacketsReceived.mMap)
    ensures Total(m.registry.totalPacketsReceived.mMap) <= AllCounted(m.history)
  {
    hide Names, SeenOf, PublishedOf, PublishedView, KeyOf, Follows;
    TotalsNonNegative(m.history);
    TotalsAddUp(m.history);
    var unpublished := Unpublished(m.history);
    forall name | name in unpublished ensures unpublished[name] >= 0 {
      PublishedIsPrefix(m.history, name);
    }
    TotalMonotone(map[], unpublished);
  }
}
