/**
 * Everything the metrics thread has done to its map of streams, and what the
 * published counters must then be.  Tabulations may come at any time.
 */
module MetricsHistory {
  import opened Common
  import opened ObservableMap
  import opened StreamMetrics
  import P = Packet
  import Id = StreamIdentifier

  datatype Event =
    | Received(packet: P.State, now: int, later: int)
    | Tabulated(name: string)

  function NameOf(packet: P.State): Result<string> {
    if packet.identifier.None? then Err(RuntimeError) else Id.NameOf(packet.identifier.value)
  }

  /** The packet has a name and an end time, so `update` does not throw. */
  predicate Counts(packet: P.State) {
    NameOf(packet).Ok? && P.GetEndTime(packet).Ok?
  }

  /** The streams that have at least one counted packet. */
  function Names(history: seq<Event>): set<string> {
    if history == [] then {}
    else
      var e := history[|history| - 1];
      Names(history[..|history| - 1])
      + if e.Received? && Counts(e.packet) then {NameOf(e.packet).value} else {}
  }

  /** The stream's own subsequence of counted packets. */
  function SeenOf(history: seq<Event>, name: string): seq<Observation> {
    if history == [] then []
    else
      var e := history[|history| - 1];
      SeenOf(history[..|history| - 1], name)
      + if e.Received? && Counts(e.packet) && NameOf(e.packet) == Ok(name)
        then [Observe(e.packet, e.now, e.later)] else []
  }

  /** The packets of the stream that its last tabulation covered. */
  function PublishedOf(history: seq<Event>, name: string): seq<Observation> {
    if history == [] then []
    else if history[|history| - 1] == Tabulated(name) then SeenOf(history[..|history| - 1], name)
    else PublishedOf(history[..|history| - 1], name)
  }

  /** The identifier of the packet that created the stream's metrics. */
  function IdentifierOf(history: seq<Event>, name: string): Id.Fields
    requires name in Names(history)
  {
    var init, e := history[..|history| - 1], history[|history| - 1];
    if name in Names(init) then IdentifierOf(init, name) else e.packet.identifier.value
  }

  function KeyOf(history: seq<Event>, name: string): string
    requires name in Names(history)
  {
    Id.MetricsKey(IdentifierOf(history, name))
  }

  /** The registry after the history. */
  ghost function PublishedView(history: seq<Event>): View {
    if history == [] then NOTHING_PUBLISHED
    else
      var init := history[..|history| - 1];
      var view := PublishedView(init);
      match history[|history| - 1]
      case Received(packet, _, _) =>
        if NameOf(packet).Ok? && NameOf(packet).value !in Names(init) then
          ZeroGauges(view, Id.MetricsKey(packet.identifier.value))
        else
          view
      case Tabulated(name) =>
        if name in Names(init) && |PublishedOf(init, name)| <= |SeenOf(init, name)| then
          Publish(view, KeyOf(init, name), BatchReport(SeenOf(init, name), |PublishedOf(init, name)|))
        else
          view
  }

  lemma {:induction false} PublishedIsPrefix(history: seq<Event>, name: string)
    ensures PublishedOf(history, name) <= SeenOf(history, name)
    ensures name in Names(history) <==> |SeenOf(history, name)| > 0
  {
    if history != [] {
      PublishedIsPrefix(history[..|history| - 1], name);
    }
  }

  /** What one more packet changes, stream by stream. */
  lemma AfterReceived(init: seq<Event>, e: Event, name: string)
    requires e.Received?
    ensures var history := init + [e];
            && Names(history) == (if Counts(e.packet) then Names(init) + {NameOf(e.packet).value} else Names(init))
            && PublishedOf(history, name) == PublishedOf(init, name)
            && SeenOf(history, name) == SeenOf(init, name) +
                 (if Counts(e.packet) && NameOf(e.packet) == Ok(name) then [Observe(e.packet, e.now, e.later)] else [])
            && (name in Names(init) ==> KeyOf(history, name) == KeyOf(init, name))
            && (name !in Names(init) && name in Names(history) ==>
                 KeyOf(history, name) == Id.MetricsKey(e.packet.identifier.value))
  {
    assert (init + [e])[..|init|] == init;
  }

  /** What one tabulation changes, stream by stream. */
  lemma AfterTabulated(init: seq<Event>, tabulated: string, name: string)
    ensures var history := init + [Tabulated(tabulated)];
            && Names(history) == Names(init)
            && SeenOf(history, name) == SeenOf(init, name)
            && PublishedOf(history, name) == (if name == tabulated then SeenOf(init, name) else PublishedOf(init, name))
            && (name in Names(init) ==> KeyOf(history, name) == KeyOf(init, name))
  {
    assert (init + [Tabulated(tabulated)])[..|init|] == init;
  }

  // The four published counters.

  datatype Counter = GoodCounter | FutureCounter | ExpiredCounter | TotalCounter

  function CounterMap(view: View, c: Counter): map<string, int> {
    match c
    case GoodCounter => view.good
    case FutureCounter => view.future
    case ExpiredCounter => view.expired
    case TotalCounter => view.total
  }

  /** How many of the packets the counter is meant to count. */
  ghost function Tally(seen: seq<Observation>, c: Counter): nat {
    match c
    case GoodCounter => CountOf(seen, Good)
    case FutureCounter => CountOf(seen, Future)
    case ExpiredCounter => CountOf(seen, Expired)
    case TotalCounter => |seen|
  }

  /** What each stream with the key has contributed to the published counter. */
  ghost function Contributions(history: seq<Event>, key: string, c: Counter): map<string, int> {
    map name | name in Names(history) && KeyOf(history, name) == key :: Tally(PublishedOf(history, name), c)
  }

  function ReportCount(report: Report, c: Counter): int {
    match c
    case GoodCounter => report.good
    case FutureCounter => report.future
    case ExpiredCounter => report.expired
    case TotalCounter => report.total
  }

  lemma PublishAdds(view: View, key: string, report: Report, other: string, c: Counter)
    ensures Get(CounterMap(Publish(view, key, report), c), other) ==
            Get(CounterMap(view, c), other) + if key == other then ReportCount(report, c) else 0
  {
  }

  lemma ReportCounts(seen: seq<Observation>, from: nat, c: Counter)
    requires from <= |seen|
    ensures ReportCount(BatchReport(seen, from), c) == Tally(seen, c) - Tally(seen[..from], c)
  {
  }

  lemma ViewTabulated(init: seq<Event>, tabulated: string) returns (report: Report)
    ensures tabulated in Names(init) ==>
              && PublishedView(init + [Tabulated(tabulated)]) ==
                 Publish(PublishedView(init), KeyOf(init, tabulated), report)
              && forall c :: ReportCount(report, c) ==
                             Tally(SeenOf(init, tabulated), c) - Tally(PublishedOf(init, tabulated), c)
    ensures tabulated !in Names(init) ==> PublishedView(init + [Tabulated(tabulated)]) == PublishedView(init)
  {
    assert (init + [Tabulated(tabulated)])[..|init|] == init;
    var seen, published := SeenOf(init, tabulated), PublishedOf(init, tabulated);
    PublishedIsPrefix(init, tabulated);
    report := BatchReport(seen, |published|);
    forall c ensures ReportCount(report, c) == Tally(seen, c) - Tally(published, c) {
      ReportCounts(seen, |published|, c);
      assert seen[..|published|] == published;
    }
  }

  lemma ReceivedKeepsContributions(init: seq<Event>, e: Event, key: string, c: Counter)
    requires e.Received?
    ensures Total(Contributions(init + [e], key, c)) == Total(Contributions(init, key, c))
  {
    hide Names, SeenOf, PublishedOf, KeyOf, Tally, Total;
    var before, after := Contributions(init, key, c), Contributions(init + [e], key, c);
    var mine := if Counts(e.packet) then NameOf(e.packet).value else "";
    var moves := mine in after && mine !in before;
    forall name
      ensures name in after <==> name in before || (moves && name == mine)
      ensures name in after ==> after[name] == Get(before, name)
    {
      AfterReceived(init, e, name);
      PublishedIsPrefix(init, name);
      NoneOfNothing(PublishedOf(init, name), c);
    }
    TotalMoves(before, after, mine, moves, 0);
  }

  lemma NoneOfNothing(seen: seq<Observation>, c: Counter)
    ensures |seen| == 0 ==> Tally(seen, c) == 0
  {
  }

  lemma TabulatedContributions(init: seq<Event>, tabulated: string, key: string, c: Counter)
    ensures Total(Contributions(init + [Tabulated(tabulated)], key, c)) ==
            Total(Contributions(init, key, c)) + Newly(init, tabulated, key, c)
  {
    var before, after := Contributions(init, key, c), Contributions(init + [Tabulated(tabulated)], key, c);
    var delta := Newly(init, tabulated, key, c);
    forall name
      ensures name in after <==> name in before
      ensures name in after ==> after[name] == before[name] + if name == tabulated then delta else 0
    {
      AfterTabulated(init, tabulated, name);
    }
    TotalMoves(before, after, tabulated, tabulated in before, delta);
  }

  /** What tabulating the stream adds to the published counter of the key. */
  ghost function Newly(history: seq<Event>, tabulated: string, key: string, c: Counter): int {
    if tabulated in Names(history) && KeyOf(history, tabulated) == key
    then Tally(SeenOf(history, tabulated), c) - Tally(PublishedOf(history, tabulated), c) else 0
  }

  /** A packet alone publishes nothing. */
  lemma ViewReceived(init: seq<Event>, e: Event, c: Counter)
    requires e.Received?
    ensures CounterMap(PublishedView(init + [e]), c) == CounterMap(PublishedView(init), c)
  {
    assert (init + [e])[..|init|] == init;
  }

  /** What one event does to a published counter. */
  lemma ViewAfterTabulated(init: seq<Event>, tabulated: string, key: string, c: Counter)
    ensures Get(CounterMap(PublishedView(init + [Tabulated(tabulated)]), c), key) ==
            Get(CounterMap(PublishedView(init), c), key) + Newly(init, tabulated, key, c)
  {
    var report := ViewTabulated(init, tabulated);
    if tabulated in Names(init) {
      PublishAdds(PublishedView(init), KeyOf(init, tabulated), report, key, c);
    }
  }

  lemma NothingPublished(history: seq<Event>, key: string, c: Counter)
    requires |history| == 0
    ensures Get(CounterMap(PublishedView(history), c), key) == Total(Contributions(history, key, c))
  {
    assert Contributions(history, key, c) == map[];
  }

  lemma CounterStaysExact(init: seq<Event>, e: Event, key: string, c: Counter)
    requires Get(CounterMap(PublishedView(init), c), key) == Total(Contributions(init, key, c))
    ensures Get(CounterMap(PublishedView(init + [e]), c), key) == Total(Contributions(init + [e], key, c))
  {
    hide Contributions, PublishedView, Newly, CounterMap, Total;
    match e
    case Received(_, _, _) =>
      ReceivedKeepsContributions(init, e, key, c);
      ViewReceived(init, e, c);
    case Tabulated(name) =>
      TabulatedContributions(init, name, key, c);
      ViewAfterTabulated(init, name, key, c);
  }

  /**
   * For every history, key and counter: the published counter is the number of
   * packets of that class over all streams with that key, up to each stream's
   * last tabulation.  Streams whose keys coincide are added up, not lost.
   */
  lemma {:induction false} PublishedCounterIsExact(history: seq<Event>, key: string, c: Counter)
    ensures Get(CounterMap(PublishedView(history), c), key) == Total(Contributions(history, key, c))
  {
    hide Contributions, PublishedView, CounterMap, Total;
    if |history| == 0 {
      NothingPublished(history, key, c);
    } else {
      var init, e := history[..|history| - 1], history[|history| - 1];
      PublishedCounterIsExact(init, key, c);
      assert history == init + [e];
      CounterStaysExact(init, e, key, c);
    }
  }

  // Streams that do not share keys.

  /** All identifiers are normalised and free of both separators. */
  ghost predicate CleanIdentifiers(history: seq<Event>) {
    forall e :: e in history && e.Received? && e.packet.identifier.Some? ==>
      var id := e.packet.identifier.value;
      Id.Normalised(id) && Id.Free(id, '.') && Id.Free(id, '_')
  }

  lemma {:induction false} IdentifierSpellsName(history: seq<Event>, name: string)
    requires name in Names(history) && CleanIdentifiers(history)
    ensures var id := IdentifierOf(history, name);
            && Id.Complete(id) && Id.DottedName(id) == name
            && Id.Normalised(id) && Id.Free(id, '.') && Id.Free(id, '_')
  {
    var init, e := history[..|history| - 1], history[|history| - 1];
    assert forall x :: x in init ==> x in history;
    if name in Names(init) {
      IdentifierSpellsName(init, name);
    } else {
      assert e in history;
    }
  }

  /** Two distinct streams never publish under the same key. */
  lemma KeysAreDistinct(history: seq<Event>, name: string, other: string)
    requires CleanIdentifiers(history) && name in Names(history) && other in Names(history)
    ensures KeyOf(history, name) == KeyOf(history, other) <==> name == other
  {
    IdentifierSpellsName(history, name);
    IdentifierSpellsName(history, other);
    Id.KeysAgree(IdentifierOf(history, name), IdentifierOf(history, other));
  }

  /** With clean identifiers the published counter of a stream's key is that stream's own count. */
  lemma PublishedCounterPerStream(history: seq<Event>, name: string, c: Counter)
    requires CleanIdentifiers(history) && name in Names(history)
    ensures Get(CounterMap(PublishedView(history), c), KeyOf(history, name)) == Tally(PublishedOf(history, name), c)
  {
    var key := KeyOf(history, name);
    PublishedCounterIsExact(history, key, c);
    forall other | other in Names(history) ensures KeyOf(history, other) == key <==> other == name {
      KeysAreDistinct(history, name, other);
    }
    var contributions := Contributions(history, key, c);
    assert contributions.Keys == {name};
    TotalSplits(contributions, name);
    assert contributions - {name} == map[];
  }

  // All streams together.

  /** The packets ever counted, over all streams. */
  function AllCounted(history: seq<Event>): nat {
    if history == [] then 0
    else
      var e := history[|history| - 1];
      AllCounted(history[..|history| - 1]) + if e.Received? && Counts(e.packet) then 1 else 0
  }

  /** Per stream, the packets counted since its last tabulation. */
  ghost function Unpublished(history: seq<Event>): map<string, int> {
    map name | name in Names(history) :: |SeenOf(history, name)| - |PublishedOf(history, name)|
  }

  lemma TotalOfAdded(m: map<string, int>, key: string, value: int)
    ensures Total(Added(m, key, value)) == Total(m) + value
  {
    TotalUpdated(m, key, Get(m, key) + value);
  }

  lemma ReceivedAddsUp(init: seq<Event>, e: Event)
    requires e.Received?
    ensures Total(Unpublished(init + [e])) == Total(Unpublished(init)) + if Counts(e.packet) then 1 else 0
  {
    var before, after := Unpublished(init), Unpublished(init + [e]);
    forall name
      ensures name in after <==> name in before || (Counts(e.packet) && NameOf(e.packet) == Ok(name))
      ensures name in after ==>
                after[name] == Get(before, name) + if Counts(e.packet) && NameOf(e.packet) == Ok(name) then 1 else 0
    {
      AfterReceived(init, e, name);
      PublishedIsPrefix(init, name);
    }
    TotalMoves(before, after, if Counts(e.packet) then NameOf(e.packet).value else "", Counts(e.packet), 1);
  }

  lemma TabulatedAddsUp(init: seq<Event>, tabulated: string)
    ensures Total(Unpublished(init + [Tabulated(tabulated)])) ==
            Total(Unpublished(init)) - Get(Unpublished(init), tabulated)
  {
    var before, after := Unpublished(init), Unpublished(init + [Tabulated(tabulated)]);
    forall name
      ensures name in after <==> name in before
      ensures name in after ==> after[name] == if name == tabulated then 0 else before[name]
    {
      AfterTabulated(init, tabulated, name);
    }
    TotalMoves(before, after, tabulated, tabulated in before, -Get(before, tabulated));
  }

  lemma TabulatedTotal(init: seq<Event>, tabulated: string)
    ensures Total(PublishedView(init + [Tabulated(tabulated)]).total) ==
            Total(PublishedView(init).total) + Get(Unpublished(init), tabulated)
  {
    var report := ViewTabulated(init, tabulated);
    if tabulated in Names(init) {
      assert ReportCount(report, TotalCounter) == |SeenOf(init, tabulated)| - |PublishedOf(init, tabulated)|;
      TotalOfAdded(PublishedView(init).total, KeyOf(init, tabulated), report.total);
    }
  }

  ghost predicate AddsUp(history: seq<Event>) {
    Total(PublishedView(history).total) + Total(Unpublished(history)) == AllCounted(history)
  }

  lemma NothingAddsUp(history: seq<Event>)
    requires |history| == 0
    ensures AddsUp(history)
  {
    assert Unpublished(history) == map[];
  }

  lemma ReceivedKeepsSum(init: seq<Event>, e: Event)
    requires e.Received? && AddsUp(init)
    ensures AddsUp(init + [e])
  {
    ReceivedAddsUp(init, e);
    ViewReceived(init, e, TotalCounter);
    assert (init + [e])[..|init|] == init;
  }

  lemma TabulatedKeepsSum(init: seq<Event>, tabulated: string)
    requires AddsUp(init)
    ensures AddsUp(init + [Tabulated(tabulated)])
  {
    TabulatedAddsUp(init, tabulated);
    TabulatedTotal(init, tabulated);
    assert (init + [Tabulated(tabulated)])[..|init|] == init;
  }

  /**
   * The sum of all published totals, whatever the keys, plus what is still
   * running in the streams, is the number of packets ever counted.
   */
  lemma {:induction false} TotalsAddUp(history: seq<Event>)
    ensures Total(PublishedView(history).total) + Total(Unpublished(history)) == AllCounted(history)
  {
    hide PublishedView, Unpublished, AllCounted, Total;
    if |history| == 0 {
      NothingAddsUp(history);
    } else {
      var init, e := history[..|history| - 1], history[|history| - 1];
      TotalsAddUp(init);
      assert history == init + [e];
      match e
      case Received(_, _, _) => ReceivedKeepsSum(init, e);
      case Tabulated(name) => TabulatedKeepsSum(init, name);
    }
  }

  /** Published totals are never negative, which is what the periodic summary relies on. */
  lemma {:induction false} TotalsNonNegative(history: seq<Event>)
    ensures NonNegative(PublishedView(history).total)
  {
    if history != [] {
      TotalsNonNegative(history[..|history| - 1]);
    }
  }
}
